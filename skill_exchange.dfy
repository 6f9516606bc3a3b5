/** The skill-exchange directory: a user is listed when a free-text search, a skill filter
    and a location filter all accept them. The search and the location ignore case; the skill
    filter does not. */
module SkillExchange {
  import opened Text
  import opened Seqs

  /** Some skill in the list contains `term`, ignoring case. */
  predicate SomeSkillMentions(skills: seq<string>, term: string)
  {
    exists i :: 0 <= i < |skills| && ContainsIgnoreCase(skills[i], term)
  }

  /** Some skill in the list contains `part` with its case (`skills.some(s => s.includes(part))`). */
  predicate SomeSkillContains(skills: seq<string>, part: string)
  {
    exists i :: 0 <= i < |skills| && Contains(skills[i], part)
  }

  /** The skill test the directory pages share: no filter, or an offered or wanted skill
      contains it. */
  predicate SkillAccepts(offered: seq<string>, wanted: seq<string>, skillFilter: string)
  {
    skillFilter == "" || SomeSkillContains(offered, skillFilter) || SomeSkillContains(wanted, skillFilter)
  }

  /** A skill that begins with the filter passes it: `React` finds `React Native`. */
  lemma SkillPrefixAccepted(offered: seq<string>, wanted: seq<string>, skillFilter: string, i: nat)
    requires i < |offered| && IsPrefix(skillFilter, offered[i])
    ensures SkillAccepts(offered, wanted, skillFilter)
  {
    assert Contains(offered[i], skillFilter);
  }

  /** The directory's record, without rating, streak and activity history. */
  datatype Member = Member(
    id: string,
    name: string,
    location: string,
    reputation: int,
    skillsOffered: seq<string>,
    skillsWanted: seq<string>,
    questionsAsked: int,
    skillsSwapped: int,
    joinedDate: string,
    currentStreak: int,
    longestStreak: int)

  predicate Kept(u: Member, searchTerm: string, skillFilter: string, locationFilter: string)
  {
    (ContainsIgnoreCase(u.name, searchTerm) || SomeSkillMentions(u.skillsOffered, searchTerm)
     || SomeSkillMentions(u.skillsWanted, searchTerm))
    && SkillAccepts(u.skillsOffered, u.skillsWanted, skillFilter)
    && (locationFilter == "" || ContainsIgnoreCase(u.location, locationFilter))
  }

  function FilteredMembers(users: seq<Member>, searchTerm: string, skillFilter: string, locationFilter: string)
    : (r: seq<Member>)
    ensures forall i :: 0 <= i < |r| ==> r[i] in users && Kept(r[i], searchTerm, skillFilter, locationFilter)
    ensures forall i :: 0 <= i < |users| && Kept(users[i], searchTerm, skillFilter, locationFilter) ==> users[i] in r
  {
    Filter(users, u => Kept(u, searchTerm, skillFilter, locationFilter))
  }

  /** The list keeps the directory's order; with all three inputs empty it is everyone. */
  lemma FilteredMembersInOrder(users: seq<Member>, searchTerm: string, skillFilter: string, locationFilter: string)
    ensures IsSubsequence(FilteredMembers(users, searchTerm, skillFilter, locationFilter), users)
    ensures searchTerm == "" && skillFilter == "" && locationFilter == "" ==>
              FilteredMembers(users, searchTerm, skillFilter, locationFilter) == users
  {
    FilterIsSubsequence(users, u => Kept(u, searchTerm, skillFilter, locationFilter));
    if searchTerm == "" && skillFilter == "" && locationFilter == "" {
      forall i | 0 <= i < |users|
        ensures Kept(users[i], searchTerm, skillFilter, locationFilter)
      {
        ContainsIgnoreCaseEmpty(users[i].name);
      }
      FilterAllPass(users, u => Kept(u, searchTerm, skillFilter, locationFilter));
    }
  }
}
