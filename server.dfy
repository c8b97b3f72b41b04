/** The decisions server/index.ts makes: the passport local strategy, what the session keeps
    (serialize / deserialize), the error handler's status and message, and the `/api` log line. */
module Server {
  import opened Options
  import opened Text
  import opened Schema
  import opened Http
  import opened Storage
  import Bcrypt

  /** What the strategy reports to passport: `done(null, user)` or
      `done(null, false, { message })`. */
  datatype StrategyResult = AuthSuccess(user: User) | AuthFailure(message: string)

  const IncorrectUsername: string := "Incorrect username"
  const IncorrectPassword: string := "Incorrect password"

  /** The local strategy: look the user up by name, then check the password against that
      user's stored digest. */
  function Authenticate(store: MemStorage, username: string, password: string): (r: StrategyResult)
    reads store
    requires store.Valid()
    ensures store.GetUserByUsername(username).None? ==> r == AuthFailure(IncorrectUsername)
    ensures store.GetUserByUsername(username).Some? ==>
      var u := store.GetUserByUsername(username).value;
      r == if Bcrypt.Compare(password, u.password) then AuthSuccess(u) else AuthFailure(IncorrectPassword)
  {
    match store.GetUserByUsername(username)
    case None => AuthFailure(IncorrectUsername)
    case Some(u) =>
      if store.VerifyPassword(u.id, password) then AuthSuccess(u) else AuthFailure(IncorrectPassword)
  }

  /** The strategy succeeds exactly when some stored user has that name and the first such
      user's digest accepts the password; a success is always a stored user. */
  lemma AuthenticateSuccess(store: MemStorage, username: string, password: string)
    requires store.Valid()
    ensures Authenticate(store, username, password).AuthSuccess? <==>
      (exists k :: k in store.users.entries && store.users.entries[k].username == username) &&
      Bcrypt.Compare(password, store.GetUserByUsername(username).value.password)
    ensures Authenticate(store, username, password).AuthSuccess? ==>
      var u := Authenticate(store, username, password).user;
      u.username == username && store.GetUserById(u.id) == Some(u)
  {
  }

  /** `serializeUser`: the session records only the user's id. */
  function SerializeUser(u: User): (id: Id)
    ensures id == u.id
  {
    u.id
  }

  /** `deserializeUser`: the session's id is turned back into a user with `getUserById`. */
  function DeserializeUser(store: MemStorage, id: Id): (r: Option<User>)
    reads store
    requires store.Valid()
    ensures r.Some? <==> id in store.users.entries
    ensures r.Some? ==> r.value.id == id
  {
    store.GetUserById(id)
  }

  /** A stored user survives the trip through the session unchanged. */
  lemma SessionRoundTrip(store: MemStorage, u: User)
    requires store.Valid() && store.GetUserById(u.id) == Some(u)
    ensures DeserializeUser(store, SerializeUser(u)) == Some(u)
  {
  }

  /** An error passed to `next(err)`: the fields the error handler reads. */
  datatype HttpError = HttpError(status: Option<int>, statusCode: Option<int>, message: Option<string>)

  /** `err.status || err.statusCode || 500`: a missing field or a 0 falls through. */
  function ErrorStatus(err: HttpError): (r: int)
    ensures r != 0
    ensures err.status.Some? && err.status.value != 0 ==> r == err.status.value
    ensures (err.status.None? || err.status.value == 0) && err.statusCode.Some? && err.statusCode.value != 0
            ==> r == err.statusCode.value
    ensures (err.status.None? || err.status.value == 0) && (err.statusCode.None? || err.statusCode.value == 0)
            ==> r == 500
  {
    if err.status.Some? && err.status.value != 0 then err.status.value
    else if err.statusCode.Some? && err.statusCode.value != 0 then err.statusCode.value
    else 500
  }

  /** `err.message || "Internal Server Error"`: an empty message falls through too. */
  function ErrorMessage(err: HttpError): (r: string)
    ensures r != ""
    ensures err.message.Some? && err.message.value != "" ==> r == err.message.value
    ensures err.message.None? || err.message.value == "" ==> r == "Internal Server Error"
  {
    if err.message.Some? && err.message.value != "" then err.message.value else "Internal Server Error"
  }

  /** The error handler's reply: `res.status(status).json({ message })`. */
  function ErrorResponse(err: HttpError): (r: Response)
    ensures r.status == ErrorStatus(err) && r.body == MessageBody(ErrorMessage(err))
  {
    Response(ErrorStatus(err), MessageBody(ErrorMessage(err)))
  }

  /** The longest log line kept whole. */
  const MaxLogLine: nat := 80

  /** The one-character ellipsis marker appended to a cut line. */
  const Ellipsis: string := "\U{2026}"

  /** The marker as the source file actually spells it: the UTF-8 bytes of the ellipsis read
      back as Windows-1252, three characters long. */
  const SourceEllipsis: string := "\U{00E2}\U{20AC}\U{00A6}"

  /** `${method} ${path} ${status} in ${duration}ms`. */
  function RequestSummary(reqMethod: string, path: string, status: int, durationMs: int): string {
    reqMethod + " " + path + " " + IntToString(status) + " in " + IntToString(durationMs) + "ms"
  }

  /** The log line before truncation: the summary, then ` :: ${json}` when a JSON body was sent. */
  function FullLogLine(reqMethod: string, path: string, status: int, durationMs: int, capturedJson: Option<string>): string {
    var summary := RequestSummary(reqMethod, path, status, durationMs);
    if capturedJson.Some? then summary + " :: " + capturedJson.value else summary
  }

  /** The request-logging middleware's `finish` handler: only `/api` paths are logged, and a
      line longer than 80 characters keeps its first 79 followed by the ellipsis. */
  method LogLine(reqMethod: string, path: string, status: int, durationMs: int, capturedJson: Option<string>)
    returns (line: Option<string>)
    ensures line.None? <==> !StartsWith(path, "/api")
    ensures line.Some? ==> |line.value| <= MaxLogLine
    ensures line.Some? ==>
      var full := FullLogLine(reqMethod, path, status, durationMs, capturedJson);
      (|full| <= MaxLogLine ==> line.value == full) &&
      (|full| > MaxLogLine ==> line.value == full[..MaxLogLine - 1] + Ellipsis)
  {
    if !StartsWith(path, "/api") {
      return None;
    }
    var logLine := RequestSummary(reqMethod, path, status, durationMs);
    if capturedJson.Some? {
      logLine := logLine + " :: " + capturedJson.value;
    }
    if |logLine| > MaxLogLine {
      logLine := logLine[..MaxLogLine - 1] + Ellipsis;
    }
    line := Some(logLine);
  }

  /** The `finish` handler as written, with the three-character marker: a line that is cut
      comes out two characters longer than the 80 it was cut to fit. */
  method LogLineAsWritten(reqMethod: string, path: string, status: int, durationMs: int, capturedJson: Option<string>)
    returns (line: Option<string>)
    ensures line.None? <==> !StartsWith(path, "/api")
    ensures line.Some? ==>
      var full := FullLogLine(reqMethod, path, status, durationMs, capturedJson);
      (|full| <= MaxLogLine ==> line.value == full) &&
      (|full| > MaxLogLine ==> line.value == full[..MaxLogLine - 1] + SourceEllipsis && |line.value| == MaxLogLine + 2)
  {
    if !StartsWith(path, "/api") {
      return None;
    }
    var logLine := RequestSummary(reqMethod, path, status, durationMs);
    if capturedJson.Some? {
      logLine := logLine + " :: " + capturedJson.value;
    }
    if |logLine| > MaxLogLine {
      logLine := logLine[..MaxLogLine - 1] + SourceEllipsis;
    }
    line := Some(logLine);
  }
}
