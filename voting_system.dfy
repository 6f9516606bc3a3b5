/** The vote widget: the guard around a vote in progress, the signed count label and the
    upvote/downvote breakdown derived from the net score. */
module Voting {
  import opened Wrappers
  import opened Text

  datatype VoteType = Up | Down

  function Abs(v: int): nat
  {
    if v < 0 then -v else v
  }

  function Max0(v: int): nat
  {
    if v < 0 then 0 else v
  }

  /** `Math.ceil(n / 2)` for an integer `n`. */
  function CeilHalf(n: int): (r: int)
    ensures 2 * r >= n && 2 * (r - 1) < n
  {
    -((-n) / 2)
  }

  /** `Math.max(0, Math.ceil((votes + Math.abs(votes)) / 2))`. */
  function Upvotes(votes: int): nat
  {
    Max0(CeilHalf(votes + Abs(votes)))
  }

  /** `Math.max(0, Math.ceil((Math.abs(votes) - votes) / 2))`. */
  function Downvotes(votes: int): nat
  {
    Max0(CeilHalf(Abs(votes) - votes))
  }

  /** The breakdown puts a positive score entirely in upvotes and a negative one entirely in
      downvotes, and the two always differ by the net score. */
  lemma BreakdownSpec(votes: int)
    ensures Upvotes(votes) == (if votes > 0 then votes else 0)
    ensures Downvotes(votes) == (if votes < 0 then -votes else 0)
    ensures Upvotes(votes) - Downvotes(votes) == votes
  {
    if votes > 0 {
      assert CeilHalf(2 * votes) == votes;
    } else if votes < 0 {
      assert CeilHalf(-2 * votes) == -votes;
    }
  }

  /** The count shown: `+v` for a positive score, the plain number otherwise. */
  function VoteLabel(votes: int): (r: string)
    ensures r != []
    ensures r[0] == '+' <==> votes > 0
  {
    if votes > 0 then "+" + IntToString(votes) else IntToString(votes)
  }

  /** The label reads back as the score. */
  lemma VoteLabelReadsBack(votes: int)
    ensures ParseInt(VoteLabel(votes)) == Some(votes)
  {
    if votes > 0 {
      var s := VoteLabel(votes);
      TrimStartNoSpace(s);
      assert s[1..] == NatToString(votes);
      ParseUnsignedOfNat(votes);
    } else {
      IntToStringRoundTrip(votes);
    }
  }

  class VoteButtons {
    const disabled: bool
    var voting: bool
    var showVoteBreakdown: bool

    constructor (isDisabled: bool)
      ensures disabled == isDisabled && !voting && !showVoteBreakdown
    {
      disabled := isDisabled;
      voting := false;
      showVoteBreakdown := false;
    }

    /** The start of `handleVote(type)`: nothing happens when disabled or while a vote is in
        progress; otherwise the vote is marked in progress and `onVote(type)` is called. */
    method BeginVote(kind: VoteType) returns (call: Option<VoteType>)
      modifies this
      ensures call.Some? <==> !disabled && !old(voting)
      ensures call.Some? ==> call.value == kind && voting
      ensures call.None? ==> voting == old(voting)
      ensures showVoteBreakdown == old(showVoteBreakdown)
    {
      if disabled || voting {
        call := None;
        return;
      }
      voting := true;
      call := Some(kind);
    }

    /** The `finally` of `handleVote`: whether `onVote` resolved or threw, the vote is over. */
    method FinishVote()
      modifies this
      ensures !voting && showVoteBreakdown == old(showVoteBreakdown)
    {
      voting := false;
    }

    /** The analytics button flips the breakdown panel. */
    method ToggleBreakdown()
      modifies this
      ensures showVoteBreakdown == !old(showVoteBreakdown) && voting == old(voting)
    {
      showVoteBreakdown := !showVoteBreakdown;
    }
  }
}
