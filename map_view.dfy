/** The skill map: a skill filter over the members shown, the position of each member's pin,
    and the selection that pins and list cards toggle. */
module MapView {
  import opened Wrappers
  import opened Seqs
  import opened SkillExchange

  /** A member on the map, without coordinates and rating. */
  datatype MapMember = MapMember(id: string, username: string, skillsOffered: seq<string>,
                                 skillsWanted: seq<string>, location: string)

  predicate Offers(selectedSkill: string, u: MapMember)
  {
    SkillAccepts(u.skillsOffered, u.skillsWanted, selectedSkill)
  }

  /** No skill chosen shows everyone; otherwise the members with an offered or wanted skill
      that contains it, with its case. */
  function FilteredMapMembers(users: seq<MapMember>, selectedSkill: string): (r: seq<MapMember>)
    ensures selectedSkill == "" ==> r == users
    ensures forall i :: 0 <= i < |r| ==> r[i] in users && Offers(selectedSkill, r[i])
    ensures forall i :: 0 <= i < |users| && Offers(selectedSkill, users[i]) ==> users[i] in r
  {
    if selectedSkill != "" then Filter(users, u => Offers(selectedSkill, u)) else users
  }

  /** The shortcut for an empty skill agrees with filtering, so the shown members (whose
      number is the `users found` count) are always a sub-sequence of the members. */
  lemma FilteredMapMembersInOrder(users: seq<MapMember>, selectedSkill: string)
    ensures FilteredMapMembers(users, selectedSkill) == Filter(users, u => Offers(selectedSkill, u))
    ensures IsSubsequence(FilteredMapMembers(users, selectedSkill), users)
  {
    if selectedSkill == "" {
      FilterAllPass(users, u => Offers(selectedSkill, u));
    }
    FilterIsSubsequence(users, u => Offers(selectedSkill, u));
  }

  /** The pin of the i-th shown member, as percentages of the map's width and height. */
  function PinLeft(i: nat): int { 20 + i * 25 }
  function PinTop(i: nat): int { 30 + i * 15 }

  /** Later pins sit strictly right of and below earlier ones, so no two pins overlap in
      position; only the first four pins start inside the map's width. */
  lemma PinsSpreadOut(i: nat, j: nat)
    ensures i < j ==> PinLeft(i) < PinLeft(j) && PinTop(i) < PinTop(j)
    ensures PinLeft(i) <= 100 <==> i <= 3
  {
  }

  /** Clicking a pin or a list card: the selected member is deselected, any other member
      becomes the selection. */
  function ToggleSelection(selected: Option<string>, id: string): (r: Option<string>)
    ensures r == None <==> selected == Some(id)
    ensures r.Some? ==> r.value == id
  {
    if selected == Some(id) then None else Some(id)
  }
}
