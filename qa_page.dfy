/** The Q&A page: the same search and tag filter as the Q&A section over its own question
    records, which carry a creation time and the answers themselves. Its comparator returns 0
    for an unknown sort choice. */
module QAPage {
  import opened Wrappers
  import opened Seqs
  import QASection

  datatype Author = Author(id: string, username: string, email: string, skillsOffered: seq<string>,
                           skillsWanted: seq<string>, swapCount: int, joinedDate: string)

  datatype Answer = Answer(id: string, content: string)

  /** A question as this page declares it; `createdAt` is the instant its ISO string denotes,
      in milliseconds. */
  datatype PageQuestion = PageQuestion(
    id: string,
    title: string,
    content: string,
    tags: seq<string>,
    author: Author,
    createdAt: int,
    votes: int,
    answers: seq<Answer>,
    isResolved: bool,
    acceptedAnswerId: Option<string>)

  predicate Kept(q: PageQuestion, searchTerm: string, selectedTag: string)
  {
    QASection.MatchesQuery(q.title, q.content, q.tags, searchTerm, selectedTag)
  }

  function FilteredQuestions(qs: seq<PageQuestion>, searchTerm: string, selectedTag: string): (r: seq<PageQuestion>)
    ensures forall i :: 0 <= i < |r| ==> r[i] in qs && Kept(r[i], searchTerm, selectedTag)
    ensures forall i :: 0 <= i < |qs| && Kept(qs[i], searchTerm, selectedTag) ==> qs[i] in r
  {
    Filter(qs, q => Kept(q, searchTerm, selectedTag))
  }

  lemma FilteredQuestionsInOrder(qs: seq<PageQuestion>, searchTerm: string, selectedTag: string)
    ensures IsSubsequence(FilteredQuestions(qs, searchTerm, selectedTag), qs)
  {
    FilterIsSubsequence(qs, q => Kept(q, searchTerm, selectedTag));
  }

  function VotesKey(q: PageQuestion): int { q.votes }
  function CreatedKey(q: PageQuestion): int { q.createdAt }
  function AnswerCountKey(q: PageQuestion): int { |q.answers| }
  /** The `default: return 0` comparator: every pair compares equal. */
  function NoKey(q: PageQuestion): int { 0 }

  function SortKey(sortBy: string): PageQuestion -> int
  {
    match sortBy
    case "votes" => VotesKey
    case "recent" => CreatedKey
    case "answers" => AnswerCountKey
    case _ => NoKey
  }

  function SortedQuestions(filtered: seq<PageQuestion>, sortBy: string): (r: seq<PageQuestion>)
    ensures |r| == |filtered|
  {
    SortDesc(filtered, SortKey(sortBy))
  }

  /** Each known choice orders by its decreasing key, loses nothing and keeps ties in order. */
  lemma SortedQuestionsSpec(filtered: seq<PageQuestion>, sortBy: string)
    ensures var r := SortedQuestions(filtered, sortBy);
            && (sortBy == "votes" ==> forall i, j :: 0 <= i < j < |r| ==> r[i].votes >= r[j].votes)
            && (sortBy == "recent" ==> forall i, j :: 0 <= i < j < |r| ==> r[i].createdAt >= r[j].createdAt)
            && (sortBy == "answers" ==> forall i, j :: 0 <= i < j < |r| ==> |r[i].answers| >= |r[j].answers|)
            && multiset(r) == multiset(filtered)
            && forall k :: WithKey(r, SortKey(sortBy), k) == WithKey(filtered, SortKey(sortBy), k)
  {
    var key := SortKey(sortBy);
    SortDescSpec(filtered, key);
    var r := SortDesc(filtered, key);
    forall i, j | 0 <= i < j < |r|
      ensures key(r[i]) >= key(r[j])
    {
    }
  }

  /** Any other choice leaves the filtered order as it is. */
  lemma UnknownSortKeepsOrder(filtered: seq<PageQuestion>, sortBy: string)
    requires sortBy != "votes" && sortBy != "recent" && sortBy != "answers"
    ensures SortedQuestions(filtered, sortBy) == filtered
  {
    SortDescEqualKeys(filtered, NoKey);
  }
}
