/**
 * The command-line entry point `scripts/__main__.py`: how the `--headless`
 * argument is read, what each command prints and which exit code it returns,
 * and how an exception escaping a command becomes an error record.
 *
 * Argument parsing and JSON text formatting are not modelled: a command is given
 * together with what the module it calls returned, and what is printed is given
 * as the value before `json.dumps`.
 */
module Cli {
  import opened Wrappers
  import opened Text
  import opened Json
  import Client

  /** The `headless` attribute of the parsed arguments: missing, a boolean, or text. */
  datatype HeadlessArg = Missing | Flag(b: bool) | Text(s: string)

  /**
   * `_headless`: a boolean is taken as it is; text means headless unless it is
   * "false" in any letter case; a missing attribute defaults to "true".
   */
  function Headless(a: HeadlessArg): (r: bool)
    ensures a.Missing? ==> r
    ensures a.Flag? ==> r == a.b
    ensures a.Text? ==> (r <==> Lower(a.s) != "false")
  {
    match a
    case Missing => Lower("true") != "false"
    case Flag(b) => b
    case Text(s) => Lower(s) != "false"
  }

  /** Only the spellings of "false" turn the browser window on. */
  lemma HeadlessSpellings()
    ensures !Headless(Text("false")) && !Headless(Text("False")) && !Headless(Text("FALSE"))
    ensures Headless(Text("true")) && Headless(Text("0")) && Headless(Text("no")) && Headless(Text(""))
  {
    assert Lower("False") == "false";
    assert Lower("FALSE") == "false";
    assert Lower("0") != "false" by { assert |Lower("0")| == 1; }
    assert Lower("no") != "false" by { assert |Lower("no")| == 2; }
    assert Lower("true") != "false" by { assert |Lower("true")| == 4; }
  }

  /** The record printed when a command has no data. */
  const NoData := Obj(map["error" := Str("No data")])

  /**
   * `format_output` before serialisation: Python's None becomes `{"error": "No data"}`,
   * whether the module returned nothing or a decoded `null`.
   */
  function FormatOutput(data: Option<Value>): (r: Value)
    ensures data.None? || data == Some(Null) ==> r == NoData
    ensures data.Some? && data.value != Null ==> r == data.value
    ensures r != Null
  {
    match data
    case None => NoData
    case Some(Null) => NoData
    case Some(v) => v
  }

  /** The commands that print what they fetched and succeed exactly when it is truthy. */
  datatype ReadCommand = FeedCmd | UserCmd | MeCmd
  /** The commands that act and succeed exactly when their result's status is "success". */
  datatype WriteCommand = CommentCmd | ReplyCmd | LikeCmd | UnlikeCmd | CollectCmd | UncollectCmd

  /** How `qrcode` went once the quick login check said no: the browser's answer and the wait. */
  datatype QrcodeFlow =
    | LoggedInAlready(username: Option<string>)
    | Browser(alreadyLoggedIn: bool, qrcodePath: Option<string>, scanned: bool)

  /** A command together with what the module it calls returned. */
  datatype Invocation =
    | Login(result: map<string, Value>)
    | Qrcode(flow: QrcodeFlow)
    | CheckLogin(loggedIn: bool, username: Option<string>)
    | Search(results: seq<Value>)
    | Read(read: ReadCommand, detail: Option<Value>)
    | Write(write: WriteCommand, record: map<string, Value>)
    | Explore(feeds: map<string, Value>)

  /** What a command printed, in order, and the exit code it returned. */
  datatype Run = Run(printed: seq<Value>, exit: int)

  function StrOrNull(s: Option<string>): Value
  {
    if s.Some? then Str(s.value) else Null
  }

  /** A status record as `cmd_qrcode` prints it. */
  function StatusRecord(status: string, message: string): Value
  {
    Obj(map["status" := Str(status), "message" := Str(message)])
  }

  /**
   * `cmd_qrcode`: 0 when already logged in (by the quick check or in the browser)
   * or when the code was scanned in time, 2 when the wait timed out, 1 when no
   * code could be obtained.
   */
  function QrcodeRun(flow: QrcodeFlow): (r: Run)
    ensures r.exit == 0 <==> flow.LoggedInAlready? || flow.alreadyLoggedIn
                             || (Given(flow.qrcodePath) && flow.scanned)
    ensures r.exit == 2 <==> flow.Browser? && !flow.alreadyLoggedIn && Given(flow.qrcodePath) && !flow.scanned
    ensures r.exit in {0, 1, 2}
    ensures flow.Browser? && !flow.alreadyLoggedIn && Given(flow.qrcodePath) ==> |r.printed| == 2
  {
    match flow
    case LoggedInAlready(username) =>
      Run([Obj(map["status" := Str("logged_in"), "qrcode_path" := Null,
                   "username" := StrOrNull(username), "message" := Str("已登录")])], 0)
    case Browser(already, path, scanned) =>
      if already then Run([StatusRecord("logged_in", "已登录")], 0)
      else if Given(path) then
        var ready := Obj(map["status" := Str("qrcode_ready"), "qrcode_path" := Str(path.value),
                             "message" := Str("请扫码登录，二维码路径: " + path.value)]);
        if scanned then Run([ready, StatusRecord("logged_in", "登录成功！")], 0)
        else Run([ready, StatusRecord("timeout", "扫码超时")], 2)
      else Run([StatusRecord("error", "获取二维码失败")], 1)
  }

  /** `result.get("status") == s`. */
  predicate StatusIs(record: map<string, Value>, s: string)
  {
    Get(record, "status") == Str(s)
  }

  /** The `cmd_*` handlers once their module call returned. */
  function CommandRun(c: Invocation): (r: Run)
    ensures c.Login? ==> r.printed == [Obj(c.result)]
                         && r.exit == (if StatusIs(c.result, "logged_in") then 0
                                       else if StatusIs(c.result, "qrcode_ready") then 2 else 1)
    ensures c.Read? ==> r.printed == [FormatOutput(c.detail)] && (r.exit == 0 <==> Present(c.detail))
    ensures c.Write? ==> r.printed == [Obj(c.record)] && (r.exit == 0 <==> StatusIs(c.record, "success"))
    ensures c.CheckLogin? || c.Search? || c.Explore? ==> r.exit == 0 && |r.printed| == 1
    ensures c.Search? ==> r.printed == [Obj(map["count" := Num(|c.results|), "results" := Arr(c.results)])]
    ensures c.Qrcode? ==> r == QrcodeRun(c.flow)
    ensures r.exit in {0, 1, 2}
    ensures r.exit == 2 ==> c.Login? || c.Qrcode?
  {
    match c
    case Login(result) =>
      Run([Obj(result)], if StatusIs(result, "logged_in") then 0 else if StatusIs(result, "qrcode_ready") then 2 else 1)
    case Qrcode(flow) => QrcodeRun(flow)
    case CheckLogin(loggedIn, username) =>
      Run([Obj(map["is_logged_in" := Bool(loggedIn), "username" := StrOrNull(username)])], 0)
    case Search(results) =>
      Run([Obj(map["count" := Num(|results|), "results" := Arr(results)])], 0)
    case Read(_, detail) => Run([FormatOutput(detail)], if Present(detail) then 0 else 1)
    case Write(_, record) => Run([Obj(record)], if StatusIs(record, "success") then 0 else 1)
    case Explore(feeds) => Run([Obj(feeds)], 0)
  }

  /** An exception escaping a command: one of the client's, or any other by class name. */
  datatype Raised = ClientRaised(e: Client.ClientError) | OtherRaised(className: string, message: string)

  /** The message `str(e)` of a client exception. */
  function ClientMessage(e: Client.ClientError): string
  {
    match e
    case NotStarted => "浏览器未启动"
    case Captcha(_, message) => message
  }

  /**
   * The record `main` prints for an escaping exception: status "error", the
   * class name and message, and for a `CaptchaError` also the captcha URL.
   */
  function ErrorRecord(x: Raised): (r: map<string, Value>)
    ensures StatusIs(r, "error") && "error_type" in r && "message" in r
    ensures "captcha_url" in r <==> x.ClientRaised? && x.e.Captcha?
    ensures x.ClientRaised? && x.e.Captcha? ==>
              r["error_type"] == Str("CaptchaError") && r["captcha_url"] == Str(x.e.captchaUrl)
              && r["message"] == Str(x.e.message)
    ensures x.ClientRaised? && x.e.NotStarted? ==> r["error_type"] == Str("RuntimeError")
    ensures x.OtherRaised? ==> r["error_type"] == Str(x.className) && r["message"] == Str(x.message)
  {
    match x
    case ClientRaised(e) =>
      if e.Captcha? then
        map["status" := Str("error"), "error_type" := Str("CaptchaError"),
            "message" := Str(ClientMessage(e)), "captcha_url" := Str(e.captchaUrl)]
      else
        map["status" := Str("error"), "error_type" := Str("RuntimeError"),
            "message" := Str(ClientMessage(e))]
    case OtherRaised(name, message) =>
      map["status" := Str("error"), "error_type" := Str(name), "message" := Str(message)]
  }

  /**
   * `main` after parsing: no command prints the help and returns 0; a command
   * that raised prints the error record and returns 1; otherwise the command's
   * own output and exit code stand.
   */
  function Main(command: Option<Invocation>, raised: Option<Raised>): (r: Run)
    ensures command.None? ==> r == Run([], 0)
    ensures command.Some? && raised.Some? ==> r == Run([Obj(ErrorRecord(raised.value))], 1)
    ensures command.Some? && raised.None? ==> r == CommandRun(command.value)
  {
    match command
    case None => Run([], 0)
    case Some(c) =>
      match raised
      case Some(x) => Run([Obj(ErrorRecord(x))], 1)
      case None => CommandRun(c)
  }

  /** The process exits with 0, 1 or 2, and 2 only from the two login commands. */
  lemma ExitCodes(command: Option<Invocation>, raised: Option<Raised>)
    ensures Main(command, raised).exit in {0, 1, 2}
    ensures Main(command, raised).exit == 2 ==> command.Some? && (command.value.Login? || command.value.Qrcode?)
    ensures raised.Some? && command.Some? ==> Main(command, raised).exit == 1
  {
  }
}
