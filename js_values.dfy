/** JavaScript values as they appear in request bodies, stored answer bags and
    records fetched from other services, with the few language operations the
    wizard pages rely on: property reads, truthiness, string conversion,
    `Array.prototype.join` and `String.prototype.split`. */
module JsValues {

  /** Numbers, booleans and functions never occur in the modelled data. */
  datatype Value =
    | Undefined
    | Null
    | Str(s: string)
    | Arr(items: seq<Value>)
    | Obj(fields: map<string, Value>)

  /** A plain object: an answer bag, a page body, an error map or a response. */
  type Record = map<string, Value>

  datatype Option<+T> = None | Some(value: T)

  datatype Result<+T, +E> = Ok(value: T) | Err(error: E)

  datatype Outcome<+E> = Pass | Fail(error: E)

  /** What a failed call or a faulty property access throws. */
  datatype Thrown =
    | HttpError(status: int)
    | TypeError
    | OtherError(message: string)

  /** `r[k]`: a missing property reads as undefined. */
  function Get(r: Record, k: string): Value
  {
    if k in r then r[k] else Undefined
  }

  /** `v?.k`: only objects carry properties here. */
  function Field(v: Value, k: string): Value
  {
    if v.Obj? then Get(v.fields, k) else Undefined
  }

  /** JavaScript truthiness: undefined, null and '' are falsy, objects and arrays are truthy. */
  predicate Truthy(v: Value)
  {
    !(v.Undefined? || v.Null? || v == Str(""))
  }

  /** `{...v}`: spreading anything but an object contributes no property. */
  function Spread(v: Value): Record
  {
    if v.Obj? then v.fields else map[]
  }

  /** `Object.keys(v).length`. */
  function KeyCount(v: Value): nat
  {
    match v
    case Obj(fields) => |fields|
    case Arr(items) => |items|
    case Str(s) => |s|
    case _ => 0
  }

  /** `String(v)`, which is also what a template literal `${v}` and a property key use. */
  function ToStr(v: Value): string
    decreases v
  {
    match v
    case Undefined => "undefined"
    case Null => "null"
    case Str(s) => s
    case Arr(items) => Join(seq(|items|, i requires 0 <= i < |items| => ElementStr(items, i)), ",")
    case Obj(_) => "[object Object]"
  }

  /** `Array.prototype.join` renders null and undefined elements as ''. */
  function ElementStr(items: seq<Value>, i: nat): string
    requires i < |items|
    decreases Arr(items), 0
  {
    if items[i].Undefined? || items[i].Null? then "" else ToStr(items[i])
  }

  /** `parts.join(sep)`. */
  function Join(parts: seq<string>, sep: string): string
  {
    if |parts| == 0 then ""
    else if |parts| == 1 then parts[0]
    else parts[0] + sep + Join(parts[1..], sep)
  }

  /** `s.split(sep)` for a one-character separator. */
  function Split(s: string, sep: char): (r: seq<string>)
    ensures |r| >= 1
  {
    SplitFrom(s, sep, "")
  }

  /** Splits `s`, the text still to scan, after `current`, the piece read so far. */
  function SplitFrom(s: string, sep: char, current: string): (r: seq<string>)
    ensures |r| >= 1
    decreases |s|
  {
    if |s| == 0 then [current]
    else if s[0] == sep then [current] + SplitFrom(s[1..], sep, "")
    else SplitFrom(s[1..], sep, current + [s[0]])
  }

  /** Scanning a piece that holds no separator only extends the piece being read. */
  lemma {:induction false} SplitFromPiece(piece: string, rest: string, sep: char, current: string)
    requires sep !in piece
    ensures SplitFrom(piece + rest, sep, current) == SplitFrom(rest, sep, current + piece)
    decreases |piece|
  {
    if |piece| == 0 {
      assert piece + rest == rest;
      assert current + piece == current;
    } else {
      assert (piece + rest)[0] == piece[0];
      assert (piece + rest)[1..] == piece[1..] + rest;
      SplitFromPiece(piece[1..], rest, sep, current + [piece[0]]);
      assert current + [piece[0]] + piece[1..] == current + piece;
    }
  }

  /** Splitting undoes joining when no piece holds the separator. */
  lemma {:induction false} SplitJoin(parts: seq<string>, sep: char)
    requires |parts| >= 1
    requires forall i :: 0 <= i < |parts| ==> sep !in parts[i]
    ensures Split(Join(parts, [sep]), sep) == parts
    decreases |parts|
  {
    if |parts| == 1 {
      SplitFromPiece(parts[0], "", sep, "");
      assert parts[0] + "" == parts[0];
      assert "" + parts[0] == parts[0];
    } else {
      var tail := Join(parts[1..], [sep]);
      assert Join(parts, [sep]) == parts[0] + ([sep] + tail);
      SplitFromPiece(parts[0], [sep] + tail, sep, "");
      assert "" + parts[0] == parts[0];
      assert ([sep] + tail)[0] == sep;
      assert ([sep] + tail)[1..] == tail;
      SplitJoin(parts[1..], sep);
      assert parts == [parts[0]] + parts[1..];
    }
  }
}
