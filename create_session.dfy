/**
 * The new-session form: the player selection, the minimum-players rule on submit and
 * the condition that enables the submit button.
 */
module CreateSession {
  import opened Wrappers
  import opened Selection
  import opened Strings

  const MIN_PLAYERS: nat := 4

  datatype Member = Member(userId: string, name: string)

  datatype Form = Form(date: string, time: string, courseName: string)

  /** The form before any input: no date, 08:00, no course. */
  const INITIAL_FORM: Form := Form("", "08:00", "")

  /** Every loaded member starts selected; a response without members selects nobody. */
  function InitialSelection(members: Option<seq<Member>>): (ids: seq<string>)
    ensures members.None? ==> ids == []
    ensures members.Some? ==>
      |ids| == |members.value| && forall k :: 0 <= k < |ids| ==> ids[k] == members.value[k].userId
  {
    match members
    case None => []
    case Some(ms) => seq(|ms|, k requires 0 <= k < |ms| => ms[k].userId)
  }

  /** Every member is selected initially. */
  lemma AllMembersPreselected(members: seq<Member>)
    ensures forall m :: m in members ==> m.userId in InitialSelection(Some(members))
  {
    forall m | m in members
      ensures m.userId in InitialSelection(Some(members))
    {
      var k :| 0 <= k < |members| && members[k] == m;
      assert InitialSelection(Some(members))[k] == m.userId;
    }
  }

  /** What submitting the form leads to: an error without any request, or the create request. */
  datatype Outcome =
    | Refused(error: string)
    | Create(playgroupId: string, date: string, time: string, courseName: string, playerIds: seq<string>)

  /** `handleSubmit`: fewer than four selected players is refused before any request. */
  function Submit(playgroupId: string, form: Form, selected: seq<string>): (r: Outcome)
    ensures r.Refused? <==> |selected| < MIN_PLAYERS
    ensures r.Refused? ==> r.error == "You need at least 4 players to create a session"
    ensures r.Create? ==>
      && r.playgroupId == playgroupId && r.date == form.date && r.time == form.time
      && r.courseName == form.courseName && r.playerIds == selected
  {
    if |selected| < MIN_PLAYERS then Refused("You need at least 4 players to create a session")
    else Create(playgroupId, form.date, form.time, form.courseName, selected)
  }

  /** The submit button is disabled while submitting, below four players, with a blank course or no date. */
  function SubmitDisabled(submitting: bool, selected: seq<string>, form: Form): (d: bool)
    ensures !d <==> !submitting && |selected| >= MIN_PLAYERS && !IsBlank(form.courseName) && form.date != ""
  {
    submitting || |selected| < MIN_PLAYERS || Trim(form.courseName) == "" || form.date == ""
  }

  /** An enabled button leads to the create request, with a non-blank course and a date. */
  lemma EnabledSubmitCreates(playgroupId: string, form: Form, selected: seq<string>)
    requires !SubmitDisabled(false, selected, form)
    ensures var r := Submit(playgroupId, form, selected);
      r.Create? && r.date != "" && Trim(r.courseName) != ""
  {
  }

  /** A fresh form cannot be submitted, whatever is selected. */
  lemma InitialFormDisabled(selected: seq<string>)
    ensures SubmitDisabled(false, selected, INITIAL_FORM)
  {
  }

  /** `togglePlayer` keeps a selection without duplicates, and toggling a new id twice restores it. */
  lemma TogglePlayerFacts(selected: seq<string>, userId: string)
    requires NoDuplicates(selected)
    ensures NoDuplicates(Toggle(selected, userId))
    ensures userId !in selected ==> Toggle(Toggle(selected, userId), userId) == selected
    ensures |Toggle(selected, userId)| <= |selected| + 1
  {
    ToggleKeepsNoDuplicates(selected, userId);
    if userId !in selected {
      ToggleTwiceRestores(selected, userId);
    }
  }
}
