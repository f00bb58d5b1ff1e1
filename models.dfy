/**
 * The persisted records the ISO builder works on: the `ISOBuild` row with its
 * lifecycle columns, the JSON option document stored with it, and the
 * `ISOTemplate` row of the template catalog.
 */
module Models {
  import opened Wrappers
  import PyText

  /** The lifecycle status column of a build. */
  datatype Status = Pending | Running | Succeeded | Failed | Canceled

  /** `status in ['pending', 'running']`: the states a build may be cancelled from. */
  predicate Cancellable(s: Status) {
    s == Pending || s == Running
  }

  /** The states after which no further transition is planned. */
  predicate IsTerminal(s: Status) {
    s == Succeeded || s == Failed || s == Canceled
  }

  /** A scalar of the build's option document (`build_options`, stored as JSON). */
  datatype Json = JNull | JBool(b: bool) | JInt(i: int) | JString(s: string)

  /** Python truthiness of an option value, as tested by `if options.get(key):`. */
  predicate Truthy(v: Json) {
    match v
    case JNull => false
    case JBool(b) => b
    case JInt(i) => i != 0
    case JString(s) => s != ""
  }

  /** `str(v)` of an option value. */
  function JsonToString(v: Json): string {
    match v
    case JNull => "None"
    case JBool(b) => if b then "True" else "False"
    case JInt(i) => PyText.IntToString(i)
    case JString(s) => s
  }

  /**
   * The lifecycle columns of a build row: the ones `queue_build` and
   * `cancel_build` write and a rollback restores. Instants are integers on
   * one clock (`datetime.utcnow()`).
   */
  datatype Row = Row(
    status: Status,
    submittedOn: Option<int>,
    endedOn: Option<int>,
    taskId: Option<string>,
    errorMessage: Option<string>)

  /**
   * The consistency a build record is meant to keep: `ended_on` is set
   * exactly when the status is terminal (`queue_build` does not keep it, see
   * `Lifecycle.QueuedConsistentIff`).
   */
  predicate EndedIffTerminal(r: Row) {
    r.endedOn.Some? <==> IsTerminal(r.status)
  }

  /**
   * An `ISOBuild` object of the ORM session. Its lifecycle columns are
   * fields the logic assigns in place; `committed` is the same columns as
   * the database last stored them, which is what a rollback brings back.
   * Text columns whose `None` and `""` the code treats alike (both are
   * falsy) are plain strings here, with `""` standing for both.
   */
  class ISOBuild {
    const id: nat
    const architecture: string
    const volid: string
    const releaseVersion: string
    const kickstartPath: string
    const kickstartContent: Option<string>
    const buildOptions: map<string, Json>
    var resultDir: string
    var buildLog: string

    var status: Status
    var submittedOn: Option<int>
    var endedOn: Option<int>
    var taskId: Option<string>
    var errorMessage: Option<string>

    var committed: Row

    /** The lifecycle columns as the object currently holds them. */
    function Columns(): Row
      reads this
    {
      Row(status, submittedOn, endedOn, taskId, errorMessage)
    }

    /** A build as loaded from the database: the object agrees with the stored row. */
    constructor Load(id: nat, architecture: string, volid: string, releaseVersion: string,
                     kickstartPath: string, kickstartContent: Option<string>,
                     buildOptions: map<string, Json>, resultDir: string, buildLog: string, row: Row)
      ensures this.id == id && this.architecture == architecture && this.volid == volid
      ensures this.releaseVersion == releaseVersion && this.kickstartPath == kickstartPath
      ensures this.kickstartContent == kickstartContent && this.buildOptions == buildOptions
      ensures this.resultDir == resultDir && this.buildLog == buildLog
      ensures Columns() == row && committed == row
    {
      this.id := id;
      this.architecture := architecture;
      this.volid := volid;
      this.releaseVersion := releaseVersion;
      this.kickstartPath := kickstartPath;
      this.kickstartContent := kickstartContent;
      this.buildOptions := buildOptions;
      this.resultDir := resultDir;
      this.buildLog := buildLog;
      status, submittedOn, endedOn, taskId, errorMessage :=
        row.status, row.submittedOn, row.endedOn, row.taskId, row.errorMessage;
      committed := row;
    }

    /** `db.session.commit()` succeeding: the database now stores the object's columns. */
    method Commit()
      modifies this`committed
      ensures committed == Columns()
    {
      committed := Columns();
    }

    /** `db.session.rollback()`: the object's columns go back to the stored row. */
    method Rollback()
      modifies this`status, this`submittedOn, this`endedOn, this`taskId, this`errorMessage
      ensures Columns() == committed
    {
      status, submittedOn, endedOn, taskId, errorMessage :=
        committed.status, committed.submittedOn, committed.endedOn, committed.taskId, committed.errorMessage;
    }
  }

  /** An `ISOTemplate` row of the template table. */
  datatype TemplateRecord = TemplateRecord(
    name: string,
    description: string,
    category: string,
    isPublic: bool,
    kickstartContent: string,
    supportedArchitectures: seq<string>,
    defaultReleaseVersion: string)
}
