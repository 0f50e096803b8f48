/**
 * The scorecard page: its initial and loaded score arrays, the per-hole edit, the
 * final-submission guard, and what a submitted card disables.
 */
module Scorecard {
  import opened Wrappers
  import opened Cards

  /** The fresh card: 18 empty slots. */
  function EmptyCard(): (s: seq<Entry>)
    ensures |s| == HOLE_COUNT && forall i :: 0 <= i < |s| ==> s[i] == Null
  {
    seq(HOLE_COUNT, _ => Null)
  }

  /**
   * The scores after loading: `fetched` is None when the request fails, Some(None) when
   * the scorecard carries no scores, and Some(Some(s)) otherwise.
   */
  function LoadedScores(fetched: Option<Option<seq<Entry>>>): (s: seq<Entry>)
    ensures fetched.Some? && fetched.value.Some? ==> s == fetched.value.value
    ensures fetched.None? || fetched.value.None? ==> s == EmptyCard()
  {
    match fetched
    case Some(Some(scores)) => scores
    case _ => EmptyCard()
  }

  /** The slot for an edited value: '' clears it; otherwise the parse result, NaN when `parsed` is None. */
  function EntryFor(value: string, parsed: Option<int>): (e: Entry)
    ensures value == "" ==> e == Null
    ensures value != "" && parsed.Some? ==> e == Num(parsed.value)
    ensures value != "" && parsed.None? ==> e == NaN
  {
    if value == "" then Null
    else if parsed.Some? then Num(parsed.value)
    else NaN
  }

  /**
   * `handleScoreChange`: a copy of the card with the one slot replaced; the card it was
   * copied from is left as it was.
   */
  method ScoreChange(prev: array<Entry>, holeIndex: nat, value: string, parsed: Option<int>)
    returns (updated: array<Entry>)
    requires holeIndex < prev.Length
    ensures fresh(updated)
    ensures updated.Length == prev.Length
    ensures updated[..] == prev[..][holeIndex := EntryFor(value, parsed)]
    ensures forall i :: 0 <= i < prev.Length && i != holeIndex ==> updated[i] == prev[i]
    ensures Total(updated[..]) == Total(prev[..]) - Value(prev[holeIndex]) + Value(EntryFor(value, parsed))
  {
    updated := new Entry[prev.Length](i reads prev requires 0 <= i < prev.Length => prev[i]);
    assert updated[..] == prev[..];
    updated[holeIndex] := EntryFor(value, parsed);
    TotalAfterChange(prev[..], holeIndex, EntryFor(value, parsed));
  }

  datatype SubmitOutcome = Refused(error: string) | Cancelled | Submitting

  /**
   * `handleSubmit` up to the API call: refused with an error while any slot is null or '',
   * then the confirmation dialog (`confirmed`) decides.
   */
  function Submit(scores: seq<Entry>, confirmed: bool): (r: SubmitOutcome)
    ensures r.Refused? <==> HasEmptySlot(scores)
    ensures r.Refused? ==> r.error == "Please enter scores for all 18 holes before submitting"
    ensures r == Submitting <==> !HasEmptySlot(scores) && confirmed
  {
    if HasEmptySlot(scores) then Refused("Please enter scores for all 18 holes before submitting")
    else if !confirmed then Cancelled
    else Submitting
  }

  /** The submit button: disabled while saving or while some slot is empty. */
  function SubmitDisabled(saving: bool, scores: seq<Entry>): (d: bool)
    ensures !d ==> Submit(scores, true) == Submitting
    ensures d <==> saving || HasEmptySlot(scores)
  {
    saving || HasEmptySlot(scores)
  }

  /** A fresh card can neither be submitted nor enabled for submission. */
  lemma EmptyCardCannotBeSubmitted(confirmed: bool, saving: bool)
    ensures Submit(EmptyCard(), confirmed).Refused?
    ensures SubmitDisabled(saving, EmptyCard())
  {
    assert IsEmptySlot(EmptyCard()[0]);
  }

  /** What the page shows for a loaded scorecard status (None: no scorecard loaded). */
  datatype View = View(inputsDisabled: bool, actionsShown: bool)

  function ViewFor(status: Option<string>): (v: View)
    ensures v.inputsDisabled <==> status == Some("submitted")
    ensures v.actionsShown <==> !v.inputsDisabled
  {
    var submitted := status == Some("submitted");
    View(submitted, !submitted)
  }
}
