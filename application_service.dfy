/** The save and load cycle of the application service: resolving a page's body,
    constructing or initialising the page, the validation gate, and the
    read-modify-write of one page's answers into the application document
    (the contract server/services/applicationService.test.ts sets out). */
module ApplicationServiceModel {
  import opened JsValues
  import opened Applications

  /** Why a save did not reach the store. */
  datatype SaveError =
    | ValidationError(errors: map<string, string>)
    | StoreError(error: Thrown)

  /** A page class as the service sees it: whether it declares a static `initialize`. */
  datatype PageClass = PageClass(name: string, hasInitialize: bool)

  /** The page instance `initializePage` produces: through `initialize(body, application,
      token, dataServices)` or through the constructor `(body, application, previousPage)`. */
  datatype PageInstance =
    | Initialized(pageClass: PageClass, body: Record, application: Application, token: string)
    | Constructed(pageClass: PageClass, body: Record, application: Application, previousPage: string)

  /** One `update(id, data)` call to the application store. */
  datatype UpdateCall = UpdateCall(id: string, data: AppData)

  /** The application document with one page's body written to `data[task][page]`;
      a null document or a missing task bag starts out empty. */
  function MergePage(data: Option<AppData>, task: string, page: string, body: Record): (r: AppData)
    ensures task in r && page in r[task] && r[task][page] == Obj(body)
    ensures data.Some? ==> r.Keys == data.value.Keys + {task}
    ensures data.None? ==> r.Keys == {task}
    ensures data.Some? ==> forall t :: t in data.value && t != task ==> r[t] == data.value[t]
    ensures data.Some? && task in data.value ==>
      && r[task].Keys == data.value[task].Keys + {page}
      && forall p :: p in data.value[task] && p != page ==> r[task][p] == data.value[task][p]
    ensures (data.None? || task !in data.value) ==> r[task] == map[page := Obj(body)]
  {
    var document := if data.Some? then data.value else map[];
    var taskData := if task in document then document[task] else map[];
    document[task := taskData[page := Obj(body)]]
  }

  /** Saving the same page twice leaves the document as saving it once. */
  lemma MergePageIdempotent(data: Option<AppData>, task: string, page: string, body: Record)
    ensures MergePage(Some(MergePage(data, task, page, body)), task, page, body) == MergePage(data, task, page, body)
  {
    var once := MergePage(data, task, page, body);
    var twice := MergePage(Some(once), task, page, body);
    assert twice[task] == once[task];
    assert twice.Keys == once.Keys;
  }

  /** The pages stored for `task`, none when the task is missing. */
  function TaskOf(d: AppData, task: string): TaskData
  {
    if task in d then d[task] else map[]
  }

  /** Two saves in a row, written out as map updates. */
  lemma TwoSaves(data: Option<AppData>, task1: string, page1: string, body1: Record,
                 task2: string, page2: string, body2: Record)
    ensures var d := if data.Some? then data.value else map[];
      var m := d[task1 := TaskOf(d, task1)[page1 := Obj(body1)]];
      MergePage(Some(MergePage(data, task1, page1, body1)), task2, page2, body2)
        == m[task2 := TaskOf(m, task2)[page2 := Obj(body2)]]
  {
  }

  /** Saves of different pages commute: neither overwrites the other. */
  lemma {:induction false} MergePagesCommute(data: Option<AppData>, task1: string, page1: string, body1: Record,
                                             task2: string, page2: string, body2: Record)
    requires task1 != task2 || page1 != page2
    ensures MergePage(Some(MergePage(data, task1, page1, body1)), task2, page2, body2)
         == MergePage(Some(MergePage(data, task2, page2, body2)), task1, page1, body1)
  {
    TwoSaves(data, task1, page1, body1, task2, page2, body2);
    TwoSaves(data, task2, page2, body2, task1, page1, body1);
    var d: AppData := if data.Some? then data.value else map[];
    var a: TaskData := TaskOf(d, task1)[page1 := Obj(body1)];
    var b: TaskData := TaskOf(d, task2)[page2 := Obj(body2)];
    if task1 == task2 {
      UpdatesCommute(TaskOf(d, task1), page1, Obj(body1), page2, Obj(body2));
    } else {
      assert TaskOf(d[task1 := a], task2) == TaskOf(d, task2);
      assert TaskOf(d[task2 := b], task1) == TaskOf(d, task1);
      UpdatesCommute(d, task1, a, task2, b);
    }
  }

  /** Writes to two different keys of a map commute. */
  lemma UpdatesCommute<K, V>(m: map<K, V>, k1: K, v1: V, k2: K, v2: V)
    requires k1 != k2
    ensures m[k1 := v1][k2 := v2] == m[k2 := v2][k1 := v1]
  {
  }

  /** `getBody`: a non-empty `userInput` wins, then a non-empty request body, then
      the answers stored for the page, else an empty body. */
  function ResolveBody(requestBody: Record, userInput: Option<Record>, stored: Value): (r: Record)
    ensures userInput.Some? && |userInput.value| > 0 ==> r == userInput.value
    ensures (userInput.None? || |userInput.value| == 0) && |requestBody| > 0 ==> r == requestBody
    ensures (userInput.None? || |userInput.value| == 0) && |requestBody| == 0 ==> r == BodyOf(stored)
    ensures r == map[] ==> (userInput.None? || userInput.value == map[]) && requestBody == map[]
  {
    if userInput.Some? && |userInput.value| > 0 then userInput.value
    else if |requestBody| > 0 then requestBody
    else BodyOf(stored)
  }

  /** The answers a save writes are the body the page is next resolved with,
      when neither `userInput` nor the request brings one. */
  lemma LoadAfterMerge(app: Application, task: string, page: string, body: Record)
    ensures var saved := app.(data := Some(MergePage(app.data, task, page, body)));
      && StoredAnswers(saved, task, page) == Obj(body)
      && ResolveBody(map[], None, StoredAnswers(saved, task, page)) == body
      && (forall p :: p != page ==> StoredAnswers(saved, task, p) == StoredAnswers(app, task, p))
      && (forall t, p :: t != task ==> StoredAnswers(saved, t, p) == StoredAnswers(app, t, p))
  {
  }

  /** The service over an application store, with the log of the update calls it has issued. */
  class ApplicationService {
    /** The application store, by application id. */
    var store: map<string, Application>
    /** The `update` calls issued so far, oldest first. */
    var updates: seq<UpdateCall>

    /** Every application is filed under its own id. */
    ghost predicate Valid()
      reads this
    {
      forall id :: id in store ==> store[id].id == id
    }

    constructor (store: map<string, Application>)
      requires forall id :: id in store ==> store[id].id == id
      ensures Valid() && this.store == store && updates == []
    {
      this.store := store;
      updates := [];
    }

    /** `save(page, request)`: a non-empty error map rejects the page and nothing is
        written; otherwise the page body is merged into the fetched document and the
        whole document is sent back with one `update` call. */
    method Save(id: string, task: string, page: string, body: Record, errors: map<string, string>)
      returns (o: Outcome<SaveError>)
      requires Valid()
      modifies this
      ensures Valid()
      ensures |errors| > 0 ==> o == Fail(ValidationError(errors)) && store == old(store) && updates == old(updates)
      ensures |errors| == 0 && id !in old(store) ==>
        o == Fail(StoreError(HttpError(404))) && store == old(store) && updates == old(updates)
      ensures |errors| == 0 && id in old(store) ==>
        var merged := MergePage(old(store)[id].data, task, page, body);
        && o == Pass
        && store == old(store)[id := old(store)[id].(data := Some(merged))]
        && updates == old(updates) + [UpdateCall(id, merged)]
    {
      if |errors| > 0 {
        return Fail(ValidationError(errors));
      }
      if id !in store {
        return Fail(StoreError(HttpError(404)));
      }
      var application := store[id];
      var merged := MergePage(application.data, task, page, body);
      store := store[id := application.(data := Some(merged))];
      updates := updates + [UpdateCall(id, merged)];
      return Pass;
    }

    /** `saveData(data, request)`: replaces the whole document and sends it with one `update` call. */
    method SaveData(id: string, data: AppData) returns (o: Outcome<SaveError>)
      requires Valid()
      modifies this
      ensures Valid()
      ensures id !in old(store) ==> o == Fail(StoreError(HttpError(404))) && store == old(store) && updates == old(updates)
      ensures id in old(store) ==>
        && o == Pass
        && store == old(store)[id := old(store)[id].(data := Some(data))]
        && updates == old(updates) + [UpdateCall(id, data)]
    {
      if id !in store {
        return Fail(StoreError(HttpError(404)));
      }
      store := store[id := store[id].(data := Some(data))];
      updates := updates + [UpdateCall(id, data)];
      return Pass;
    }

    /** `initializePage(Page, request, dataServices, userInput)`: fetches the
        application, resolves the body, and hands both to the class's `initialize`
        when it has one, otherwise to its constructor with the session's previous page. */
    method InitializePage(pageClass: PageClass, id: string, task: string, page: string, requestBody: Record,
                          userInput: Option<Record>, previousPage: string, token: string)
      returns (r: Result<PageInstance, Thrown>)
      requires Valid()
      ensures id !in store ==> r == Err(HttpError(404))
      ensures r.Ok? ==> r.value.application.id == id
      ensures id in store ==>
        var application := store[id];
        var body := ResolveBody(requestBody, userInput, StoredAnswers(application, task, page));
        && r.Ok?
        && r.value.body == body && r.value.application == application && r.value.pageClass == pageClass
        && (pageClass.hasInitialize <==> r.value.Initialized?)
        && (r.value.Initialized? ==> r.value.token == token)
        && (r.value.Constructed? ==> r.value.previousPage == previousPage)
    {
      if id !in store {
        return Err(HttpError(404));
      }
      var application := store[id];
      var body := ResolveBody(requestBody, userInput, StoredAnswers(application, task, page));
      if pageClass.hasInitialize {
        return Ok(Initialized(pageClass, body, application, token));
      }
      return Ok(Constructed(pageClass, body, application, previousPage));
    }
  }

  /** What was saved for a page is what the page is loaded with next, when the
      request brings no body of its own. */
  method SaveThenLoad(service: ApplicationService, pageClass: PageClass, id: string, task: string, page: string,
                      body: Record, previousPage: string, token: string)
    returns (r: Result<PageInstance, Thrown>)
    requires service.Valid() && id in service.store
    modifies service
    ensures r.Ok? && r.value.body == body
  {
    var saved := service.Save(id, task, page, body, map[]);
    r := service.InitializePage(pageClass, id, task, page, map[], None, previousPage, token);
  }
}
