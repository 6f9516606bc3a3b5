/** The Q&A section of the skill-exchange app: a search over title and content, a tag filter
    with exact tag match, the three sort orders, and the tag chips that toggle the filter. */
module QASection {
  import opened Text
  import opened Seqs

  /** The `Question` record; `timestamp` is the instant its ISO string denotes, in
      milliseconds. */
  datatype Question = Question(
    id: string,
    title: string,
    content: string,
    author: string,
    timestamp: int,
    answers: int,
    votes: int,
    tags: seq<string>,
    isResolved: bool)

  /** The filter callback shared by both Q&A pages: the search occurs, ignoring case, in the
      title or the content, and the selected tag is empty or, with its case, one of the tags. */
  predicate MatchesQuery(title: string, content: string, tags: seq<string>, searchTerm: string, selectedTag: string)
  {
    (ContainsIgnoreCase(title, searchTerm) || ContainsIgnoreCase(content, searchTerm))
    && (selectedTag == "" || selectedTag in tags)
  }

  predicate Kept(q: Question, searchTerm: string, selectedTag: string)
  {
    MatchesQuery(q.title, q.content, q.tags, searchTerm, selectedTag)
  }

  function FilteredQuestions(qs: seq<Question>, searchTerm: string, selectedTag: string): (r: seq<Question>)
    ensures forall i :: 0 <= i < |r| ==> r[i] in qs && Kept(r[i], searchTerm, selectedTag)
    ensures forall i :: 0 <= i < |qs| && Kept(qs[i], searchTerm, selectedTag) ==> qs[i] in r
  {
    Filter(qs, q => Kept(q, searchTerm, selectedTag))
  }

  /** The list keeps the questions' order; with no search and no tag it is every question. */
  lemma FilteredQuestionsInOrder(qs: seq<Question>, searchTerm: string, selectedTag: string)
    ensures IsSubsequence(FilteredQuestions(qs, searchTerm, selectedTag), qs)
    ensures searchTerm == "" && selectedTag == "" ==> FilteredQuestions(qs, searchTerm, selectedTag) == qs
  {
    FilterIsSubsequence(qs, q => Kept(q, searchTerm, selectedTag));
    if searchTerm == "" && selectedTag == "" {
      forall i | 0 <= i < |qs|
        ensures Kept(qs[i], searchTerm, selectedTag)
      {
        ContainsIgnoreCaseEmpty(qs[i].title);
      }
      FilterAllPass(qs, q => Kept(q, searchTerm, selectedTag));
    }
  }

  function VotesKey(q: Question): int { q.votes }
  function AnswersKey(q: Question): int { q.answers }
  function TimeKey(q: Question): int { q.timestamp }

  /** The key the comparator subtracts: `recent` and every unknown choice sort by time. */
  function SortKey(sortBy: string): Question -> int
  {
    match sortBy
    case "votes" => VotesKey
    case "answers" => AnswersKey
    case _ => TimeKey
  }

  /** `[...filtered].sort(...)`, a stable sort by decreasing key. */
  function SortedQuestions(filtered: seq<Question>, sortBy: string): (r: seq<Question>)
    ensures |r| == |filtered|
  {
    SortDesc(filtered, SortKey(sortBy))
  }

  /** The sorted list is ordered by decreasing key (most votes, most answers or latest first),
      holds exactly the filtered questions, and keeps ties in their filtered order. */
  lemma SortedQuestionsSpec(filtered: seq<Question>, sortBy: string)
    ensures var r := SortedQuestions(filtered, sortBy);
            && (sortBy == "votes" ==> forall i, j :: 0 <= i < j < |r| ==> r[i].votes >= r[j].votes)
            && (sortBy == "answers" ==> forall i, j :: 0 <= i < j < |r| ==> r[i].answers >= r[j].answers)
            && (sortBy != "votes" && sortBy != "answers" ==>
                  forall i, j :: 0 <= i < j < |r| ==> r[i].timestamp >= r[j].timestamp)
            && multiset(r) == multiset(filtered)
            && forall k :: WithKey(r, SortKey(sortBy), k) == WithKey(filtered, SortKey(sortBy), k)
  {
    var key := SortKey(sortBy);
    SortDescSpec(filtered, key);
    var r := SortDesc(filtered, key);
    forall i, j | 0 <= i < j < |r|
      ensures key(r[i]) >= key(r[j])
    {
    }
  }

  /** A tag chip: clicking the selected tag clears the filter, clicking another selects it. */
  function ToggleTag(selectedTag: string, tag: string): (r: string)
    ensures tag != "" ==> (r == "" <==> tag == selectedTag)
    ensures r != "" ==> r == tag
  {
    if tag == selectedTag then "" else tag
  }
}
