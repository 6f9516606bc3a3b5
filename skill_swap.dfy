/** The skill-swap page: the same three-way filter as the skill-exchange directory over its
    own member record, whose location may be missing, and the skill chips of a card. */
module SkillSwap {
  import opened Wrappers
  import opened Text
  import opened Seqs
  import opened SkillExchange

  datatype SwapMember = SwapMember(
    id: string,
    username: string,
    email: string,
    skillsOffered: seq<string>,
    skillsWanted: seq<string>,
    swapCount: int,
    joinedDate: string,
    location: Option<string>,
    bio: Option<string>)

  /** A location filter passes when it is empty, or when the member has a location that
      contains it, ignoring case. */
  predicate LocationAccepts(location: Option<string>, locationFilter: string)
  {
    locationFilter == "" || (location.Some? && ContainsIgnoreCase(location.value, locationFilter))
  }

  predicate Kept(u: SwapMember, searchTerm: string, skillFilter: string, locationFilter: string)
  {
    (ContainsIgnoreCase(u.username, searchTerm) || SomeSkillMentions(u.skillsOffered, searchTerm)
     || SomeSkillMentions(u.skillsWanted, searchTerm))
    && SkillAccepts(u.skillsOffered, u.skillsWanted, skillFilter)
    && LocationAccepts(u.location, locationFilter)
  }

  function FilteredMembers(users: seq<SwapMember>, searchTerm: string, skillFilter: string, locationFilter: string)
    : (r: seq<SwapMember>)
    ensures forall i :: 0 <= i < |r| ==> r[i] in users && Kept(r[i], searchTerm, skillFilter, locationFilter)
    ensures forall i :: 0 <= i < |users| && Kept(users[i], searchTerm, skillFilter, locationFilter) ==> users[i] in r
  {
    Filter(users, u => Kept(u, searchTerm, skillFilter, locationFilter))
  }

  /** The list keeps the page's order, and a location filter drops every member without a
      location. */
  lemma FilteredMembersInOrder(users: seq<SwapMember>, searchTerm: string, skillFilter: string, locationFilter: string)
    ensures IsSubsequence(FilteredMembers(users, searchTerm, skillFilter, locationFilter), users)
    ensures locationFilter != "" ==>
              forall i :: 0 <= i < |FilteredMembers(users, searchTerm, skillFilter, locationFilter)| ==>
                FilteredMembers(users, searchTerm, skillFilter, locationFilter)[i].location.Some?
  {
    FilterIsSubsequence(users, u => Kept(u, searchTerm, skillFilter, locationFilter));
  }

  /** The chips of a card's skill list: its first three skills. */
  function ShownSkills(skills: seq<string>): (r: seq<string>)
    ensures |r| <= 3 && r <= skills
    ensures |skills| <= 3 ==> r == skills
  {
    Slice(skills, 0, 3)
  }

  /** The `+N more` chip, present only for a list of more than three skills. */
  function MoreChip(skills: seq<string>): (r: Option<string>)
    ensures r.Some? <==> |skills| > 3
  {
    if |skills| > 3 then Some("+" + IntToString(|skills| - 3) + " more") else None
  }

  /** The chips account for the whole list: three shown, and the `+N more` chip's number is
      the rest. */
  lemma ChipsCoverSkills(skills: seq<string>)
    requires |skills| > 3
    ensures |ShownSkills(skills)| == 3
    ensures var chip := MoreChip(skills).value;
            chip[0] == '+' && ParseInt(chip[1..]) == Some(|skills| - |ShownSkills(skills)|)
  {
    var chip := MoreChip(skills).value;
    assert chip[1..] == IntToString(|skills| - 3) + " more";
    IntToStringPrefixRoundTrip(|skills| - 3, " more");
  }
}
