/**
 * The membership wizard: selecting membership types (channels) and plans
 * by toggling, filtering the fetched plans by the selected types, the
 * two-step navigation (only the step from 1 to 2 is validated), and the
 * submission payload.
 */
module CreateMembership {
  import opened Wrappers
  import opened Seqs
  import opened Text
  import ClientSlice

  type Plan = ClientSlice.Plan

  /** No id is listed twice. */
  predicate NoDuplicates(xs: seq<string>) {
    forall i, j :: 0 <= i < j < |xs| ==> xs[i] != xs[j]
  }

  /** `prev.filter(x => x !== id)`. */
  function RemoveAll(xs: seq<string>, id: string): (ys: seq<string>)
    ensures id !in ys
    ensures forall x :: x != id ==> (x in ys <==> x in xs)
    ensures SubsequenceOf(ys, xs)
    ensures forall x :: multiset(ys)[x] == if x != id then multiset(xs)[x] else 0
  {
    FilterIsSubsequence(xs, x => x != id);
    FilterMultisetAll(xs, x => x != id);
    Filter(xs, x => x != id)
  }

  /** `prev.includes(id) ? prev.filter(x => x !== id) : [...prev, id]`. */
  function Toggle(xs: seq<string>, id: string): (ys: seq<string>)
    ensures id in xs ==> ys == RemoveAll(xs, id)
    ensures id !in xs ==> ys == xs + [id]
    ensures id in ys <==> id !in xs
    ensures forall x :: x != id ==> (x in ys <==> x in xs)
  {
    if id in xs then RemoveAll(xs, id) else xs + [id]
  }

  lemma {:induction false} SubsequenceNoDuplicates(ys: seq<string>, xs: seq<string>)
    requires SubsequenceOf(ys, xs) && NoDuplicates(xs)
    ensures NoDuplicates(ys)
    decreases |xs|
  {
    if ys != [] {
      if xs != [] && ys[0] == xs[0] && SubsequenceOf(ys[1..], xs[1..]) {
        SubsequenceNoDuplicates(ys[1..], xs[1..]);
        SubsequenceMembers(ys[1..], xs[1..]);
        forall j | 0 < j < |ys|
          ensures ys[0] != ys[j]
        {
          assert ys[1..][j - 1] in xs[1..];
        }
      } else {
        SubsequenceNoDuplicates(ys, xs[1..]);
      }
    }
  }

  lemma {:induction false} SubsequenceMembers(ys: seq<string>, xs: seq<string>)
    requires SubsequenceOf(ys, xs)
    ensures forall y :: y in ys ==> y in xs
    decreases |xs|
  {
    if ys != [] {
      if xs != [] && ys[0] == xs[0] && SubsequenceOf(ys[1..], xs[1..]) {
        SubsequenceMembers(ys[1..], xs[1..]);
        assert ys == [ys[0]] + ys[1..];
      } else {
        SubsequenceMembers(ys, xs[1..]);
      }
    }
  }

  /** Toggling keeps a duplicate-free selection duplicate-free. */
  lemma ToggleKeepsNoDuplicates(xs: seq<string>, id: string)
    ensures NoDuplicates(xs) ==> NoDuplicates(Toggle(xs, id))
  {
    if id in xs && NoDuplicates(xs) {
      SubsequenceNoDuplicates(RemoveAll(xs, id), xs);
    }
  }

  lemma {:induction false} RemoveAllAppend(xs: seq<string>, id: string)
    requires id !in xs
    ensures RemoveAll(xs + [id], id) == xs
  {
    if xs == [] {
      assert [id][1..] == [];
    } else {
      assert (xs + [id])[1..] == xs[1..] + [id];
      RemoveAllAppend(xs[1..], id);
      assert [xs[0]] + xs[1..] == xs;
    }
  }

  /** Toggling an absent id twice restores the exact list. */
  lemma ToggleTwiceRestores(xs: seq<string>, id: string)
    requires id !in xs
    ensures Toggle(Toggle(xs, id), id) == xs
  {
    RemoveAllAppend(xs, id);
  }

  datatype Wizard = Wizard(
    step: int,
    selectedMemberships: seq<string>,
    selectedPlans: seq<string>,
    error: string)

  const Start := Wizard(1, [], [], "")

  const SelectTypeError := "Please select at least one membership type"
  const SelectPlanError := "Please select at least one plan"

  /** The wizard shows one of its two steps and holds no repeated selection. */
  predicate Valid(w: Wizard) {
    (w.step == 1 || w.step == 2) && NoDuplicates(w.selectedMemberships) && NoDuplicates(w.selectedPlans)
  }

  /** `handleMembershipToggle`: toggles the type and empties the plan selection. */
  function ToggleMembership(w: Wizard, id: string): (r: Wizard)
    ensures r.selectedMemberships == Toggle(w.selectedMemberships, id)
    ensures r.selectedPlans == [] && r.error == "" && r.step == w.step
    ensures Valid(w) ==> Valid(r)
  {
    ToggleKeepsNoDuplicates(w.selectedMemberships, id);
    w.(selectedMemberships := Toggle(w.selectedMemberships, id), selectedPlans := [], error := "")
  }

  /** `handlePlanToggle`. */
  function TogglePlan(w: Wizard, id: string): (r: Wizard)
    ensures r.selectedPlans == Toggle(w.selectedPlans, id)
    ensures r.selectedMemberships == w.selectedMemberships && r.error == "" && r.step == w.step
    ensures Valid(w) ==> Valid(r)
  {
    ToggleKeepsNoDuplicates(w.selectedPlans, id);
    w.(selectedPlans := Toggle(w.selectedPlans, id), error := "")
  }

  /** `validateStep1`: passes exactly when a type is selected, recording the message otherwise. */
  function ValidateStep1(w: Wizard): (r: (bool, Wizard))
    ensures r.0 <==> |w.selectedMemberships| > 0
    ensures r.1 == w.(error := if r.0 then "" else SelectTypeError)
  {
    if |w.selectedMemberships| == 0 then (false, w.(error := SelectTypeError)) else (true, w.(error := ""))
  }

  /** `validateStep2`: fails exactly when no plan is selected. */
  function ValidateStep2(w: Wizard): (r: (bool, Wizard))
    ensures !r.0 <==> w.selectedPlans == []
    ensures r.1 == w.(error := if r.0 then "" else SelectPlanError)
  {
    if |w.selectedPlans| == 0 then (false, w.(error := SelectPlanError)) else (true, w.(error := ""))
  }

  /** `nextStep`: from step 1, advances only when validation passes; elsewhere does nothing. */
  function NextStep(w: Wizard): (r: Wizard)
    ensures r.step == 2 <==> w.step == 2 || (w.step == 1 && |w.selectedMemberships| > 0)
    ensures w.step != 1 ==> r == w
    ensures w.step == 1 && w.selectedMemberships == [] ==> r == w.(error := SelectTypeError)
    ensures r.selectedMemberships == w.selectedMemberships && r.selectedPlans == w.selectedPlans
    ensures Valid(w) ==> Valid(r)
  {
    if w.step == 1 then
      var (ok, w') := ValidateStep1(w);
      if ok then w'.(step := 2) else w'
    else w
  }

  /** `prevStep`: steps back only from a later step, clearing the error. */
  function PrevStep(w: Wizard): (r: Wizard)
    ensures w.step > 1 ==> r == w.(step := w.step - 1, error := "")
    ensures w.step <= 1 ==> r == w
    ensures Valid(w) ==> Valid(r) && r.step == 1
  {
    if w.step > 1 then w.(step := w.step - 1, error := "") else w
  }

  /** The lower-cased channel of a plan is one of the selected types. */
  predicate ChannelSelected(plan: Plan, types: seq<string>) {
    Lower(plan.Channel) in types
  }

  /** The filter applied to the fetched plans. */
  function PlansForTypes(plans: seq<Plan>, types: seq<string>): (r: seq<Plan>)
    ensures SubsequenceOf(r, plans)
    ensures forall p :: p in r <==> p in plans && ChannelSelected(p, types)
    ensures forall p :: multiset(r)[p] == if ChannelSelected(p, types) then multiset(plans)[p] else 0
  {
    FilterIsSubsequence(plans, (p: Plan) => ChannelSelected(p, types));
    FilterMultisetAll(plans, (p: Plan) => ChannelSelected(p, types));
    Filter(plans, (p: Plan) => ChannelSelected(p, types))
  }

  /** `plans.filter(p => p.Channel.toLowerCase() === channel)`. */
  function PlansOnChannel(plans: seq<Plan>, channel: string): (r: seq<Plan>)
    ensures SubsequenceOf(r, plans)
    ensures forall p :: p in r <==> p in plans && Lower(p.Channel) == channel
    ensures forall p :: multiset(r)[p] == if Lower(p.Channel) == channel then multiset(plans)[p] else 0
  {
    FilterIsSubsequence(plans, (p: Plan) => Lower(p.Channel) == channel);
    FilterMultisetAll(plans, (p: Plan) => Lower(p.Channel) == channel);
    Filter(plans, (p: Plan) => Lower(p.Channel) == channel)
  }

  /** `smsPlans` and `whatsappPlans` share no plan, and a plan on any other channel is in neither. */
  lemma ChannelPlansPartition(plans: seq<Plan>, p: Plan)
    ensures !(p in PlansOnChannel(plans, "sms") && p in PlansOnChannel(plans, "whatsapp"))
    ensures Lower(p.Channel) != "sms" && Lower(p.Channel) != "whatsapp" ==>
      p !in PlansOnChannel(plans, "sms") && p !in PlansOnChannel(plans, "whatsapp")
  {
  }

  datatype MembershipRequest = MembershipRequest(client_id: Option<string>, plan_id: string)

  /** The body of the create-membership request: one entry per selected plan, in order. */
  function SubmissionPayload(selectedPlans: seq<string>, clientId: Option<string>): (r: seq<MembershipRequest>)
    ensures |r| == |selectedPlans|
    ensures forall i :: 0 <= i < |r| ==> r[i].plan_id == selectedPlans[i] && r[i].client_id == clientId
  {
    if selectedPlans == [] then []
    else [MembershipRequest(clientId, selectedPlans[0])] + SubmissionPayload(selectedPlans[1..], clientId)
  }

  /**
   * `handleSubmit` as written: it clears the error and posts one entry per
   * selected plan. `validateStep2` is never consulted and the submit button
   * is disabled only while loading, so an empty selection is posted.
   */
  function HandleSubmit(w: Wizard, clientId: Option<string>): (r: (Wizard, Option<seq<MembershipRequest>>))
    ensures r.0 == w.(error := "")
    ensures r.1.Some? && |r.1.value| == |w.selectedPlans|
    ensures forall i :: 0 <= i < |r.1.value| ==> r.1.value[i].plan_id == w.selectedPlans[i]
  {
    (w.(error := ""), Some(SubmissionPayload(w.selectedPlans, clientId)))
  }

  /** With no plan selected, the request is still sent, with an empty list. */
  lemma SubmitWithoutPlansPostsEmpty(w: Wizard, clientId: Option<string>)
    requires w.selectedPlans == []
    ensures HandleSubmit(w, clientId).1 == Some([])
    ensures HandleSubmit(w, clientId).0.error == ""
  {
  }

  /** `handleSubmit` guarded by `validateStep2`: nothing is posted without a plan. */
  function HandleSubmitChecked(w: Wizard, clientId: Option<string>): (r: (Wizard, Option<seq<MembershipRequest>>))
    ensures r.1.Some? <==> w.selectedPlans != []
    ensures r.1.Some? ==> r == HandleSubmit(w, clientId)
    ensures r.1.None? ==> r.0 == w.(error := SelectPlanError)
  {
    var (ok, w') := ValidateStep2(w);
    if ok then (w', Some(SubmissionPayload(w.selectedPlans, clientId))) else (w', None)
  }

  /** The guarded submit never posts an empty list, and otherwise posts what the original does. */
  lemma SubmitCheckedNeverPostsEmpty(w: Wizard, clientId: Option<string>)
    ensures HandleSubmitChecked(w, clientId).1.Some? ==> |HandleSubmitChecked(w, clientId).1.value| > 0
    ensures w.selectedPlans != [] ==> HandleSubmitChecked(w, clientId) == HandleSubmit(w, clientId)
    ensures w.selectedPlans == [] ==> HandleSubmitChecked(w, clientId).0.error == SelectPlanError
  {
  }
}
