/** The application record the wizard reads and writes back. */
module Applications {
  import opened JsValues

  /** Answer bags of one task, keyed by page name. */
  type TaskData = map<string, Value>

  /** `application.data`: per task, per page, the stored answer bag. */
  type AppData = map<string, TaskData>

  /** `data` is null (None) for a freshly created application. */
  datatype Application = Application(id: string, crn: string, data: Option<AppData>)

  /** A stored answer bag used as a page body: only an object supplies fields. */
  function BodyOf(v: Value): Record
  {
    if v.Obj? then v.fields else map[]
  }

  /** `application.data[task]?.[page]`, the answer bag stored for one page. */
  function StoredAnswers(app: Application, task: string, page: string): Value
  {
    if app.data.Some? && task in app.data.value then Get(app.data.value[task], page) else Undefined
  }
}
