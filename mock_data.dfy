/** The in-memory back end of the StackIt front end: the question listing with search,
    sort and pagination, single-question and answer look-ups, the tag list, and the
    user table behind login and registration. Dates are millisecond timestamps. */
module MockData {
  import opened Wrappers
  import opened Text
  import opened Seqs

  datatype User = User(id: string, email: string, username: string, avatar: string)

  datatype Question = Question(
    id: string,
    title: string,
    description: string,
    tags: seq<string>,
    author: User,
    votes: int,
    createdAt: int,
    updatedAt: int,
    answersCount: int)

  datatype Answer = Answer(
    id: string,
    content: string,
    author: User,
    votes: int,
    isAccepted: bool,
    questionId: string,
    createdAt: int,
    updatedAt: int)

  datatype Notification = Notification(id: string, message: string, isRead: bool, createdAt: int)

  /** One page of the listing, with the length of the whole filtered list. */
  datatype Page = Page(questions: seq<Question>, total: nat, page: int, limit: int)

  /** A rejected request: the HTTP status and, when there is one, the error message. */
  datatype Rejection = Rejection(status: int, message: Option<string>)

  datatype Session = Session(user: User, token: string)

  const MockToken := "mock-jwt-token"
  const DefaultSort := "newest"

  // ---------------------------------------------------------------- listing

  predicate SomeTagContains(tags: seq<string>, term: string)
  {
    exists i :: 0 <= i < |tags| && ContainsIgnoreCase(tags[i], term)
  }

  /** The search test: the term occurs, ignoring case, in the title, the description or a tag. */
  predicate MatchesSearch(q: Question, term: string)
  {
    ContainsIgnoreCase(q.title, term) || ContainsIgnoreCase(q.description, term)
    || SomeTagContains(q.tags, term)
  }

  /** `if (search)`: an absent or empty search term filters nothing. */
  function SearchFilter(qs: seq<Question>, search: Option<string>): (r: seq<Question>)
    ensures search.None? || search.value == "" ==> r == qs
    ensures search.Some? && search.value != "" ==> r == Filter(qs, q => MatchesSearch(q, search.value))
  {
    if search.Some? && search.value != "" then Filter(qs, q => MatchesSearch(q, search.value)) else qs
  }

  function NewestKey(q: Question): int { q.createdAt }
  function OldestKey(q: Question): int { -q.createdAt }
  function VotesKey(q: Question): int { q.votes }
  predicate Unanswered(q: Question) { q.answersCount == 0 }

  /** The `switch (sort)`: three stable sorts, the `unanswered` filter, and no change for
      any other key. */
  function ApplySort(qs: seq<Question>, sort: string): seq<Question>
  {
    match sort
    case "newest" => SortDesc(qs, NewestKey)
    case "oldest" => SortDesc(qs, OldestKey)
    case "popular" => SortDesc(qs, VotesKey)
    case "unanswered" => Filter(qs, Unanswered)
    case _ => qs
  }

  /** The full list before pagination; `sort` defaults to `newest` only when absent. */
  function Listed(qs: seq<Question>, search: Option<string>, sort: Option<string>): seq<Question>
  {
    ApplySort(SearchFilter(qs, search), if sort.None? then DefaultSort else sort.value)
  }

  /** `getQuestions(page, limit, search, sort)`: the page is `slice((page-1)*limit, page*limit)`
      of the listed questions, and `total` counts them all. */
  function GetQuestions(qs: seq<Question>, page: int, limit: int, search: Option<string>,
                        sort: Option<string>): (r: Page)
    ensures r.total == |Listed(qs, search, sort)|
    ensures r.page == page && r.limit == limit
  {
    var listed := Listed(qs, search, sort);
    var start := (page - 1) * limit;
    Page(Slice(listed, start, start + limit), |listed|, page, limit)
  }

  lemma MulNonNegative(a: int, b: int)
    requires a >= 0 && b >= 0
    ensures a * b >= 0
  {
  }

  /** For a page number from 1 and a non-negative limit, the page is the run of at most
      `limit` listed questions starting at `(page-1)*limit`, and empty past the end. */
  lemma GetQuestionsPage(qs: seq<Question>, page: int, limit: int, search: Option<string>,
                         sort: Option<string>)
    requires page >= 1 && limit >= 0
    ensures var listed := Listed(qs, search, sort);
            var start := (page - 1) * limit;
            var r := GetQuestions(qs, page, limit, search, sort).questions;
            && |r| <= limit
            && (start >= |listed| ==> r == [])
            && (0 <= start < |listed| ==> r == listed[start..if start + limit <= |listed| then start + limit else |listed|])
  {
    var listed := Listed(qs, search, sort);
    var start := (page - 1) * limit;
    MulNonNegative(page - 1, limit);
    assert GetQuestions(qs, page, limit, search, sort).questions == Slice(listed, start, start + limit);
    SliceWindow(listed, start, limit);
  }

  /** `total` does not depend on the page requested or on the page size. */
  lemma TotalIgnoresPage(qs: seq<Question>, p1: int, l1: int, p2: int, l2: int,
                         search: Option<string>, sort: Option<string>)
    ensures GetQuestions(qs, p1, l1, search, sort).total == GetQuestions(qs, p2, l2, search, sort).total
  {
  }

  /** With a non-empty search term every listed question matches it; an empty or absent term
      keeps every question. */
  lemma SearchResultsMatch(qs: seq<Question>, search: Option<string>)
    ensures search.Some? && search.value != "" ==>
              forall i :: 0 <= i < |SearchFilter(qs, search)| ==> MatchesSearch(SearchFilter(qs, search)[i], search.value)
    ensures search.Some? && search.value != "" ==>
              forall i :: 0 <= i < |qs| && MatchesSearch(qs[i], search.value) ==> qs[i] in SearchFilter(qs, search)
    ensures search.None? || search.value == "" ==> SearchFilter(qs, search) == qs
  {
  }

  /** `popular` lists by decreasing votes, ties in the order of the question store, and loses
      nothing. */
  lemma PopularOrder(qs: seq<Question>, search: Option<string>)
    ensures var r := Listed(qs, search, Some("popular"));
            && (forall i, j :: 0 <= i < j < |r| ==> r[i].votes >= r[j].votes)
            && multiset(r) == multiset(SearchFilter(qs, search))
            && (forall k :: WithKey(r, VotesKey, k) == WithKey(SearchFilter(qs, search), VotesKey, k))
  {
    var f := SearchFilter(qs, search);
    SortDescSorted(f, VotesKey);
    SortDescPermutation(f, VotesKey);
    forall k
      ensures WithKey(SortDesc(f, VotesKey), VotesKey, k) == WithKey(f, VotesKey, k)
    {
      SortDescStable(f, VotesKey, k);
    }
  }

  /** `newest`, also the default, lists the latest question first. */
  lemma NewestOrder(qs: seq<Question>, search: Option<string>, sort: Option<string>)
    requires sort == None || sort == Some("newest")
    ensures var r := Listed(qs, search, sort);
            && (forall i, j :: 0 <= i < j < |r| ==> r[i].createdAt >= r[j].createdAt)
            && multiset(r) == multiset(SearchFilter(qs, search))
            && (forall k :: WithKey(r, NewestKey, k) == WithKey(SearchFilter(qs, search), NewestKey, k))
  {
    var f := SearchFilter(qs, search);
    SortDescSorted(f, NewestKey);
    SortDescPermutation(f, NewestKey);
    forall k
      ensures WithKey(SortDesc(f, NewestKey), NewestKey, k) == WithKey(f, NewestKey, k)
    {
      SortDescStable(f, NewestKey, k);
    }
  }

  /** `oldest` lists the earliest question first. */
  lemma OldestOrder(qs: seq<Question>, search: Option<string>)
    ensures var r := Listed(qs, search, Some("oldest"));
            && (forall i, j :: 0 <= i < j < |r| ==> r[i].createdAt <= r[j].createdAt)
            && multiset(r) == multiset(SearchFilter(qs, search))
            && (forall k :: WithKey(r, OldestKey, k) == WithKey(SearchFilter(qs, search), OldestKey, k))
  {
    var f := SearchFilter(qs, search);
    var r := SortDesc(f, OldestKey);
    assert Listed(qs, search, Some("oldest")) == r;
    SortDescSpec(f, OldestKey);
    forall i, j | 0 <= i < j < |r|
      ensures r[i].createdAt <= r[j].createdAt
    {
      assert OldestKey(r[i]) >= OldestKey(r[j]);
    }
  }

  /** `unanswered` keeps exactly the questions without answers, in their original order, and
      does not sort. */
  lemma UnansweredFilter(qs: seq<Question>, search: Option<string>)
    ensures var r := Listed(qs, search, Some("unanswered"));
            var f := SearchFilter(qs, search);
            && (forall i :: 0 <= i < |r| ==> r[i].answersCount == 0)
            && (forall i :: 0 <= i < |f| && f[i].answersCount == 0 ==> f[i] in r)
            && IsSubsequence(r, f)
  {
    FilterIsSubsequence(SearchFilter(qs, search), Unanswered);
  }

  /** Any other sort key leaves the searched list as it is. */
  lemma UnknownSortKeepsOrder(qs: seq<Question>, search: Option<string>, sort: string)
    requires sort !in {"newest", "oldest", "popular", "unanswered"}
    ensures Listed(qs, search, Some(sort)) == SearchFilter(qs, search)
  {
  }

  // ---------------------------------------------------------------- look-ups

  /** `array.find(q => q.id === id)`: the first question with the id. */
  function FindQuestion(qs: seq<Question>, id: string): (r: Option<nat>)
    ensures r.Some? ==> r.value < |qs| && qs[r.value].id == id
                        && forall j :: 0 <= j < r.value ==> qs[j].id != id
    ensures r.None? ==> forall j :: 0 <= j < |qs| ==> qs[j].id != id
  {
    FindFirst(qs, (q: Question) => q.id == id)
  }

  /** `getQuestion(id)`: the first question with the id, rejected with status 404 when there
      is none. */
  function GetQuestion(qs: seq<Question>, id: string): (r: Result<Question, Rejection>)
    ensures r.Err? <==> forall j :: 0 <= j < |qs| ==> qs[j].id != id
    ensures r.Err? ==> r.error == Rejection(404, None)
    ensures r.Ok? ==> r.value.id == id
                      && exists k :: 0 <= k < |qs| && qs[k] == r.value && forall j :: 0 <= j < k ==> qs[j].id != id
  {
    match FindQuestion(qs, id)
    case None => Err(Rejection(404, None))
    case Some(k) => Ok(qs[k])
  }

  predicate AnswerOf(questionId: string, a: Answer) { a.questionId == questionId }

  /** `getAnswers(questionId)`: exactly the answers of that question, in stored order. */
  function GetAnswers(answers: seq<Answer>, questionId: string): (r: seq<Answer>)
    ensures forall i :: 0 <= i < |r| ==> r[i].questionId == questionId
    ensures forall i :: 0 <= i < |answers| && answers[i].questionId == questionId ==> answers[i] in r
  {
    Filter(answers, a => AnswerOf(questionId, a))
  }

  lemma GetAnswersInOrder(answers: seq<Answer>, questionId: string)
    ensures IsSubsequence(GetAnswers(answers, questionId), answers)
  {
    FilterIsSubsequence(answers, a => AnswerOf(questionId, a));
  }

  /** `questions.flatMap(q => q.tags)`. */
  function AllTags(qs: seq<Question>): (r: seq<string>)
    ensures forall t :: t in r <==> exists i :: 0 <= i < |qs| && t in qs[i].tags
  {
    if qs == [] then [] else qs[0].tags + AllTags(qs[1..])
  }

  /** `getTags()`: `Array.from(new Set(allTags))`. */
  function GetTags(qs: seq<Question>): seq<string>
  {
    Dedup(AllTags(qs))
  }

  /** Every tag of every question appears once, ordered by its first occurrence. */
  lemma GetTagsSpec(qs: seq<Question>)
    ensures forall t :: t in GetTags(qs) <==> t in AllTags(qs)
    ensures forall t :: t in GetTags(qs) <==> exists i :: 0 <= i < |qs| && t in qs[i].tags
    ensures NoDuplicates(GetTags(qs))
    ensures var all := AllTags(qs);
            forall i, j :: 0 <= i < j < |GetTags(qs)| ==> IndexOf(all, GetTags(qs)[i]) < IndexOf(all, GetTags(qs)[j])
  {
    DedupSpec(AllTags(qs));
  }

  // ---------------------------------------------------------------- users

  /** The first user with the email. */
  function FindUserByEmail(users: seq<User>, email: string): (r: Option<nat>)
    ensures r.Some? ==> r.value < |users| && users[r.value].email == email
                        && forall j :: 0 <= j < r.value ==> users[j].email != email
    ensures r.None? ==> forall j :: 0 <= j < |users| ==> users[j].email != email
  {
    FindFirst(users, (u: User) => u.email == email)
  }

  /** `login(email, password)`: every account shares the password `password`; the session
      is for the first user with the email. */
  function Login(users: seq<User>, email: string, password: string): (r: Result<Session, string>)
    ensures r.Ok? <==> (exists j :: 0 <= j < |users| && users[j].email == email) && password == "password"
    ensures r.Ok? ==> r.value.user.email == email && r.value.user in users && r.value.token == MockToken
    ensures r.Ok? ==> FindUserByEmail(users, email).Some? && r.value.user == users[FindUserByEmail(users, email).value]
    ensures r.Err? ==> r.error == "Invalid credentials"
  {
    match FindUserByEmail(users, email)
    case Some(k) =>
      if password == "password" then Ok(Session(users[k], MockToken)) else Err("Invalid credentials")
    case None => Err("Invalid credentials")
  }

  /** No user id reads as a number above `n`. */
  ghost predicate IdsAtMost(users: seq<User>, n: nat)
  {
    forall i, k: nat :: 0 <= i < |users| && k > n ==> users[i].id != NatToString(k)
  }

  ghost predicate UniqueIds(users: seq<User>)
  {
    forall i, j :: 0 <= i < j < |users| ==> users[i].id != users[j].id
  }

  /** The shared `mockUsers` array, which registration grows with `push`. */
  class UserTable {
    var users: seq<User>

    /** The table keeps distinct ids, none of which reads as a number above its size, so
        that the next registration's id is fresh. */
    ghost predicate Valid()
      reads this
    {
      IdsAtMost(users, |users|) && UniqueIds(users)
    }

    /** The four seed accounts, with ids `demo`, `1`, `2` and `3`. */
    constructor ()
      ensures users == SeedUsers()
      ensures Valid()
    {
      users := SeedUsers();
      SeedUsersValid();
    }

    /** `register(email, password, username)`: appends a user whose id is the old user count
        plus one, printed in decimal, with no avatar; the password is not stored. */
    method Register(email: string, password: string, username: string) returns (s: Session)
      requires Valid()
      modifies this
      ensures users == old(users) + [User(NatToString(|old(users)| + 1), email, username, "")]
      ensures s == Session(users[|users| - 1], MockToken)
      ensures Valid()
    {
      var user := User(NatToString(|users| + 1), email, username, "");
      RegisterKeepsIdsUnique(users, user);
      users := users + [user];
      s := Session(user, MockToken);
    }
  }

  /** The generated avatar of a seed account: its name with `+` for spaces, on its colour. */
  function AvatarUrl(name: string, background: string): string
  {
    "https://ui-avatars.com/api/?name=" + name + "&background=" + background + "&color=fff&size=80"
  }

  function SeedUsers(): seq<User>
  {
    [ User("demo", "demo@stackit.com", "Demo User", AvatarUrl("Demo+User", "667eea")),
      User("1", "john@example.com", "John Doe", AvatarUrl("John+Doe", "f48024")),
      User("2", "jane@example.com", "Jane Smith", AvatarUrl("Jane+Smith", "28a745")),
      User("3", "mike@example.com", "Mike Johnson", AvatarUrl("Mike+Johnson", "dc3545")) ]
  }

  lemma SeedUsersValid()
    ensures IdsAtMost(SeedUsers(), 4) && UniqueIds(SeedUsers())
  {
    var u := SeedUsers();
    assert NatToString(1) == "1" && NatToString(2) == "2" && NatToString(3) == "3";
    forall i, k: nat | 0 <= i < |u| && k > 4
      ensures u[i].id != NatToString(k)
    {
      if i == 0 {
        assert IsDigit(NatToString(k)[0]);
      } else if u[i].id == NatToString(k) {
        NatToStringInjective(i, k);
      }
    }
  }

  /** Registration keeps ids distinct: the new id `String(n + 1)` is above every numeric id
      already present. */
  lemma RegisterKeepsIdsUnique(users: seq<User>, user: User)
    requires IdsAtMost(users, |users|) && UniqueIds(users)
    requires user.id == NatToString(|users| + 1)
    ensures IdsAtMost(users + [user], |users| + 1) && UniqueIds(users + [user])
  {
    var u := users + [user];
    forall i, k: nat | 0 <= i < |u| && k > |users| + 1
      ensures u[i].id != NatToString(k)
    {
      if i == |users| && u[i].id == NatToString(k) {
        NatToStringInjective(|users| + 1, k);
      }
    }
  }
}
