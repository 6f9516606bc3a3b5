/** The mock HTTP client the StackIt front end talks to: GET requests are routed by URL to
    the in-memory back end, POST requests to login, registration or canned creation
    replies, and PATCH requests always succeed. */
module MockApi {
  import opened Wrappers
  import opened Text
  import opened Seqs
  import opened MockData

  // ---------------------------------------------------------------- URLs

  /** `s.split(sep)`: the pieces between separators, empty pieces included. */
  function Split(s: string, sep: char): (r: seq<string>)
    ensures |r| >= 1
    decreases |s|
  {
    if sep !in s then [s]
    else
      var i := IndexOf(s, sep);
      [s[..i]] + Split(s[i + 1..], sep)
  }

  predicate IsDigits(d: string)
  {
    |d| > 0 && forall i :: 0 <= i < |d| ==> IsDigit(d[i])
  }

  const QuestionsPrefix := "/questions/"
  const AnswersSuffix := "/answers"

  /** `/^\/questions\/\d+$/`. */
  predicate IsQuestionPath(url: string)
  {
    IsPrefix(QuestionsPrefix, url) && IsDigits(url[|QuestionsPrefix|..])
  }

  /** `/^\/questions\/\d+\/answers$/`. */
  predicate IsAnswersPath(url: string)
  {
    |url| > |QuestionsPrefix| + |AnswersSuffix| && IsPrefix(QuestionsPrefix, url)
    && url[|url| - |AnswersSuffix|..] == AnswersSuffix
    && IsDigits(url[|QuestionsPrefix|..|url| - |AnswersSuffix|])
  }

  /** `url.split('/')[2]`, or the empty string when there are fewer pieces. */
  function ThirdSegment(url: string): string
  {
    var parts := Split(url, '/');
    if |parts| > 2 then parts[2] else ""
  }

  lemma SplitNoSeparator(s: string, sep: char)
    requires sep !in s
    ensures Split(s, sep) == [s]
  {
  }

  lemma SplitAt(a: string, b: string, sep: char)
    requires sep !in a
    ensures Split(a + [sep] + b, sep) == [a] + Split(b, sep)
  {
    var s := a + [sep] + b;
    assert s[..|a|] == a && s[|a|] == sep;
    assert s[|a| + 1..] == b;
  }

  lemma SplitTwoPieces(a: string, b: string, tail: string, sep: char)
    requires sep !in a && sep !in b
    ensures Split(a + [sep] + b + [sep] + tail, sep) == [a, b] + Split(tail, sep)
  {
    var bt := b + [sep] + tail;
    assert a + [sep] + b + [sep] + tail == a + [sep] + bt;
    SplitAt(a, bt, sep);
    SplitAt(b, tail, sep);
  }

  /** Splitting a `/questions/...` URL gives an empty piece, `questions`, then the pieces of
      the tail. */
  lemma SplitQuestionsPrefix(tail: string)
    ensures Split(QuestionsPrefix + tail, '/') == ["", "questions"] + Split(tail, '/')
  {
    var q := "questions";
    assert '/' !in q;
    assert QuestionsPrefix == "" + ['/'] + q + ['/'];
    SplitTwoPieces("", q, tail, '/');
  }

  /** The first piece of `d + rest` is `d` when `d` has no slash and `rest` is empty or
      starts a new piece. */
  lemma FirstPieceOf(d: string, rest: string)
    requires '/' !in d
    requires rest == [] || rest[0] == '/'
    ensures Split(d + rest, '/')[0] == d
  {
    if rest == [] {
      assert d + rest == d;
      SplitNoSeparator(d, '/');
    } else {
      assert d + rest == d + ['/'] + rest[1..];
      SplitAt(d, rest[1..], '/');
    }
  }

  /** The third piece of `/questions/<d><rest>` is `d` under the same conditions. */
  lemma ThirdSegmentOf(d: string, rest: string)
    requires '/' !in d
    requires rest == [] || rest[0] == '/'
    ensures ThirdSegment(QuestionsPrefix + d + rest) == d
  {
    var tail := d + rest;
    var url := QuestionsPrefix + tail;
    assert QuestionsPrefix + d + rest == url;
    var parts := Split(url, '/');
    assert parts == ["", "questions"] + Split(tail, '/') by {
      SplitQuestionsPrefix(tail);
    }
    assert Split(tail, '/')[0] == d by {
      FirstPieceOf(d, rest);
    }
    assert parts[2] == d;
  }

  /** The id the router hands on is the digit run of the URL. */
  lemma QuestionPathId(url: string)
    requires IsQuestionPath(url)
    ensures ThirdSegment(url) == url[|QuestionsPrefix|..]
  {
    var d := url[|QuestionsPrefix|..];
    assert '/' !in d;
    assert url == QuestionsPrefix + d + [];
    ThirdSegmentOf(d, []);
  }

  lemma AnswersPathId(url: string)
    requires IsAnswersPath(url)
    ensures ThirdSegment(url) == url[|QuestionsPrefix|..|url| - |AnswersSuffix|]
  {
    var d := url[|QuestionsPrefix|..|url| - |AnswersSuffix|];
    assert '/' !in d;
    assert url == QuestionsPrefix + d + AnswersSuffix;
    ThirdSegmentOf(d, AnswersSuffix);
  }

  // ---------------------------------------------------------------- GET

  datatype GetRoute =
    | ListQuestions
    | QuestionById(id: string)
    | AnswersOf(questionId: string)
    | TagList
    | NotificationList
    | CurrentUser
    | NoRoute

  /** The rules of `get`, tried in order: the `/questions?` prefix, the two patterns, then
      the three exact paths. */
  function RouteGet(url: string): (r: GetRoute)
    ensures r == ListQuestions <==> IsPrefix("/questions?", url)
    ensures r.QuestionById? <==> !IsPrefix("/questions?", url) && IsQuestionPath(url)
    ensures r.QuestionById? ==> r.id == url[|QuestionsPrefix|..] && IsDigits(r.id)
    ensures r.AnswersOf? <==> !IsPrefix("/questions?", url) && !IsQuestionPath(url) && IsAnswersPath(url)
    ensures r.AnswersOf? ==> r.questionId == url[|QuestionsPrefix|..|url| - |AnswersSuffix|] && IsDigits(r.questionId)
    ensures r == NoRoute <==>
              !IsPrefix("/questions?", url) && !IsQuestionPath(url) && !IsAnswersPath(url)
              && url != "/tags" && url != "/notifications" && url != "/auth/me"
  {
    if IsPrefix("/questions?", url) then ListQuestions
    else if IsQuestionPath(url) then (QuestionPathId(url); QuestionById(ThirdSegment(url)))
    else if IsAnswersPath(url) then (AnswersPathId(url); AnswersOf(ThirdSegment(url)))
    else if url == "/tags" then TagList
    else if url == "/notifications" then NotificationList
    else if url == "/auth/me" then CurrentUser
    else NoRoute
  }

  /** `config.params`; every field may be absent. */
  datatype Params = Params(page: Option<string>, limit: Option<string>, search: Option<string>,
                           sort: Option<string>)

  const NoParams := Params(None, None, None, None)

  /** `parseInt(v) || fallback`: an absent or unreadable value, and zero, give the fallback. */
  function IntOr(v: Option<string>, fallback: int): (r: int)
    ensures v.None? ==> r == fallback
    ensures v.Some? && ParseInt(v.value).Some? && ParseInt(v.value).value != 0 ==> r == ParseInt(v.value).value
    ensures v.Some? && (ParseInt(v.value).None? || ParseInt(v.value) == Some(0)) ==> r == fallback
  {
    if v.None? then fallback
    else match ParseInt(v.value)
      case Some(n) => if n != 0 then n else fallback
      case None => fallback
  }

  /** The back end's state as the router sees it; `storedUser` is the session remembered by
      the last login or registration. */
  datatype Store = Store(questions: seq<Question>, answers: seq<Answer>,
                         notifications: seq<Notification>, users: seq<User>,
                         storedUser: Option<User>)

  /** `getMe()`: the remembered user, else the first user of the table. */
  function GetMe(store: Store): (r: Option<User>)
    ensures store.storedUser.Some? ==> r == store.storedUser
    ensures store.storedUser.None? && store.users != [] ==> r == Some(store.users[0])
  {
    if store.storedUser.Some? then store.storedUser
    else if store.users == [] then None
    else Some(store.users[0])
  }

  datatype GetReply =
    | QuestionsPage(page: Page)
    | OneQuestion(question: Question)
    | AnswerList(answers: seq<Answer>)
    | TagNames(tags: seq<string>)
    | NotificationItems(notifications: seq<Notification>)
    | Me(user: Option<User>)

  const NotFound := Rejection(404, Some("Mock endpoint not found"))

  /** `mockApiWrapper.get(url, config)`. */
  function Get(url: string, config: Option<Params>, store: Store): (r: Result<GetReply, Rejection>)
    ensures RouteGet(url) == NoRoute ==> r == Err(NotFound)
    ensures r.Err? ==> r.error.status == 404
    ensures RouteGet(url) == ListQuestions ==>
              var p := if config.Some? then config.value else NoParams;
              r == Ok(QuestionsPage(GetQuestions(store.questions, IntOr(p.page, 1), IntOr(p.limit, 10),
                                                 p.search, p.sort)))
    ensures RouteGet(url).QuestionById? ==>
              var q := GetQuestion(store.questions, RouteGet(url).id);
              (q.Ok? ==> r == Ok(OneQuestion(q.value))) && (q.Err? ==> r == Err(q.error))
    ensures RouteGet(url).AnswersOf? ==> r == Ok(AnswerList(GetAnswers(store.answers, RouteGet(url).questionId)))
    ensures RouteGet(url) == TagList ==> r == Ok(TagNames(GetTags(store.questions)))
    ensures RouteGet(url) == NotificationList ==> r == Ok(NotificationItems(store.notifications))
    ensures RouteGet(url) == CurrentUser ==> r == Ok(Me(GetMe(store)))
  {
    var params := if config.Some? then config.value else NoParams;
    match RouteGet(url)
    case ListQuestions =>
      Ok(QuestionsPage(GetQuestions(store.questions, IntOr(params.page, 1), IntOr(params.limit, 10),
                                    params.search, params.sort)))
    case QuestionById(id) =>
      (match GetQuestion(store.questions, id)
       case Ok(q) => Ok(OneQuestion(q))
       case Err(e) => Err(e))
    case AnswersOf(id) => Ok(AnswerList(GetAnswers(store.answers, id)))
    case TagList => Ok(TagNames(GetTags(store.questions)))
    case NotificationList => Ok(NotificationItems(store.notifications))
    case CurrentUser => Ok(Me(GetMe(store)))
    case NoRoute => Err(NotFound)
  }

  /** A list request takes page, limit, search and sort from `config.params` only: the query
      string of the URL is never read, so a request carrying its parameters in the URL and no
      `config` lists page 1 of 10, unsearched, newest first. */
  lemma ListIgnoresQueryString(url: string, store: Store)
    requires IsPrefix("/questions?", url)
    ensures Get(url, None, store) == Ok(QuestionsPage(GetQuestions(store.questions, 1, 10, None, None)))
  {
  }

  /** Two list URLs with the same `config` give the same reply, whatever their queries say. */
  lemma ListSameForAnyQuery(url1: string, url2: string, config: Option<Params>, store: Store)
    requires IsPrefix("/questions?", url1) && IsPrefix("/questions?", url2)
    ensures Get(url1, config, store) == Get(url2, config, store)
  {
  }

  /** A question URL whose id no question has is rejected with the look-up's bare 404, not
      the not-found message of unknown endpoints. */
  lemma UnknownQuestionRejected(url: string, store: Store)
    requires !IsPrefix("/questions?", url) && IsQuestionPath(url)
    requires forall j :: 0 <= j < |store.questions| ==> store.questions[j].id != url[|QuestionsPrefix|..]
    ensures Get(url, None, store) == Err(Rejection(404, None))
  {
  }

  // ---------------------------------------------------------------- POST and PATCH

  /** A JSON value as far as the request bodies and replies need one. */
  datatype Value = Str(s: string) | Num(n: int) | Bool(b: bool) | Strs(items: seq<string>)
                 | Author(user: Option<User>) | Null

  type Object = map<string, Value>

  function StrField(data: Object, key: string): Option<string>
  {
    if key in data && data[key].Str? then Some(data[key].s) else None
  }

  datatype PostReply =
    | LoginReply(session: Result<Session, string>)
    /** The body's fields, which the caller hands to `UserTable.Register`; that method stores
        the new user and gives the `{user, token}` reply. */
    | RegisterCall(email: Option<string>, password: Option<string>, username: Option<string>)
    | Created(fields: Object)
    | Success

  /** The fields the mock always sets on a created question, after the body's own fields. */
  function QuestionStamp(author: Option<User>, isoNow: string): Object
  {
    map["author" := Author(author), "votes" := Num(0), "createdAt" := Str(isoNow),
        "updatedAt" := Str(isoNow), "answersCount" := Num(0)]
  }

  function AnswerStamp(author: Option<User>, isoNow: string): Object
  {
    map["author" := Author(author), "votes" := Num(0), "isAccepted" := Bool(false),
        "createdAt" := Str(isoNow), "updatedAt" := Str(isoNow)]
  }

  /** `{ id: String(now), ...data, ...stamp }`: the body may replace the generated id, while
      the stamp replaces whatever the body says. */
  function Spread(now: int, data: Object, stamp: Object): (r: Object)
    ensures forall k :: k in stamp ==> k in r && r[k] == stamp[k]
    ensures forall k :: k in data && k !in stamp ==> k in r && r[k] == data[k]
    ensures "id" !in stamp ==> "id" in r && r["id"] == if "id" in data then data["id"] else Str(IntToString(now))
    ensures r.Keys == {"id"} + data.Keys + stamp.Keys
  {
    map["id" := Str(IntToString(now))] + data + stamp
  }

  /** `mockApiWrapper.post(url, data)`; `now` is `Date.now()` and `isoNow` the same instant
      as an ISO string. */
  function Post(url: string, data: Object, store: Store, now: int, isoNow: string): (r: PostReply)
    ensures url == "/auth/login" <==> r.LoginReply?
    ensures url == "/auth/register" <==> r.RegisterCall?
    ensures r.Success? <==> url !in {"/auth/login", "/auth/register", "/questions"} && !IsAnswersPath(url)
  {
    if url == "/auth/login" then
      var email, password := StrField(data, "email"), StrField(data, "password");
      LoginReply(if email.Some? && password.Some? then Login(store.users, email.value, password.value)
                 else Err("Invalid credentials"))
    else if url == "/auth/register" then
      RegisterCall(StrField(data, "email"), StrField(data, "password"), StrField(data, "username"))
    else if url == "/questions" then Created(Spread(now, data, QuestionStamp(GetMe(store), isoNow)))
    else if IsAnswersPath(url) then Created(Spread(now, data, AnswerStamp(GetMe(store), isoNow)))
    else Success
  }

  /** A posted question comes back with the body's fields, the current user as author, no
      votes and no answers, whatever the body said about those. */
  lemma PostQuestionReply(data: Object, store: Store, now: int, isoNow: string)
    ensures var r := Post("/questions", data, store, now, isoNow);
            && r.Created?
            && r.fields["author"] == Author(GetMe(store))
            && r.fields["votes"] == Num(0)
            && r.fields["answersCount"] == Num(0)
            && r.fields["id"] == (if "id" in data then data["id"] else Str(IntToString(now)))
            && forall k :: k in data && k !in QuestionStamp(GetMe(store), isoNow) ==> r.fields[k] == data[k]
  {
  }

  /** A posted answer comes back with no votes and not accepted. */
  lemma PostAnswerReply(url: string, data: Object, store: Store, now: int, isoNow: string)
    requires IsAnswersPath(url)
    ensures var r := Post(url, data, store, now, isoNow);
            && r.Created?
            && r.fields["votes"] == Num(0)
            && r.fields["isAccepted"] == Bool(false)
            && r.fields["author"] == Author(GetMe(store))
            && forall k :: k in data && k !in AnswerStamp(GetMe(store), isoNow) ==> r.fields[k] == data[k]
  {
    assert url != "/questions" by {
      assert |url| > |QuestionsPrefix| + |AnswersSuffix|;
    }
  }

  /** A login reply is a session exactly when the body's email belongs to a user and the
      password is `password`. */
  lemma PostLoginReply(data: Object, store: Store, now: int, isoNow: string)
    ensures var r := Post("/auth/login", data, store, now, isoNow);
            r.session.Ok? <==>
              && StrField(data, "email").Some?
              && (exists j :: 0 <= j < |store.users| && store.users[j].email == StrField(data, "email").value)
              && StrField(data, "password") == Some("password")
  {
  }

  /** `mockApiWrapper.patch`: every update is acknowledged and nothing is stored. */
  function Patch(url: string, data: Object): (r: PostReply)
    ensures r == Success
  {
    Success
  }

  // ---------------------------------------------------------------- client choice

  datatype Client = MockClient | HttpClient

  /** The exported client: `REACT_APP_USE_MOCK_DATA === 'true' || true` is always true, so
      the mock is used whatever the environment says. */
  function ExportedClient(useMockSetting: Option<string>): (r: Client)
    ensures r == MockClient
  {
    var useMock := useMockSetting == Some("true") || true;
    if useMock then MockClient else HttpClient
  }
}
