/** The page of one partner: the partner named by the route parameter, an edit
    mode that works on a copy and commits it to the store on save, and a
    dialog that logs a new engagement ("activity") with the partner. */
module PartnerDetail {
  import opened Common
  import opened Collections
  import opened Records
  import opened DataContext

  // ===========================================================================
  // Finding the partner

  /** The first partner with that id. */
  function FindById(ps: seq<Partner>, id: int): (r: Option<Partner>)
    ensures r.Some? ==> exists i :: 0 <= i < |ps| && ps[i] == r.value && r.value.id == id
                                    && forall k :: 0 <= k < i ==> ps[k].id != id
    ensures r.None? <==> forall k :: 0 <= k < |ps| ==> ps[k].id != id
  {
    if ps == [] then None
    else if ps[0].id == id then Some(ps[0])
    else
      var rest := FindById(ps[1..], id);
      assert forall k :: 0 <= k < |ps| - 1 ==> ps[1..][k] == ps[k + 1];
      rest
  }

  /** `partners.find(p => p.id === parseInt(param))`: a parameter that is not
      a number finds nothing, since NaN equals no id. */
  function FindPartner(ps: seq<Partner>, param: string): (r: Option<Partner>)
    ensures ParseInt(param).None? ==> r.None?
    ensures ParseInt(param).Some? ==> r == FindById(ps, ParseInt(param).value)
  {
    match ParseInt(param)
    case None => None
    case Some(n) => FindById(ps, n)
  }

  /** A route parameter written in hexadecimal, such as `0x3`, finds the
      partner whose id is its hexadecimal value, as parseInt reads it. */
  lemma HexRouteFinds(ps: seq<Partner>, h: string)
    requires h != [] && AllRadixDigits(h, true)
    ensures FindPartner(ps, "0x" + h) == FindById(ps, DigitsValue(h, true))
  {
    ParseIntHex('x', h, []);
    assert ['0', 'x'] + h + [] == "0x" + h;
  }

  /** After the store replaces the partner by a record with the same id, the
      page finds that record. */
  lemma FindAfterUpdate(ps: seq<Partner>, param: string, u: Partner)
    requires FindPartner(ps, param).Some? && u.id == FindPartner(ps, param).value.id
    ensures FindPartner(Updated(ps, u), param) == Some(u)
  {
    var n := ParseInt(param).value;
    var t := Updated(ps, u);
    var i :| 0 <= i < |ps| && ps[i] == FindById(ps, n).value && ps[i].id == n && forall k :: 0 <= k < i ==> ps[k].id != n;
    FindFirst(t, n, i);
  }

  lemma {:induction false} FindFirst(ps: seq<Partner>, id: int, i: nat)
    requires i < |ps| && ps[i].id == id && forall k :: 0 <= k < i ==> ps[k].id != id
    ensures FindById(ps, id) == Some(ps[i])
  {
    if i > 0 {
      FindFirst(ps[1..], id, i - 1);
    }
  }

  /** With distinct ids, saving an unchanged copy leaves the store as it was. */
  lemma SaveUnchanged(ps: seq<Partner>, p: Partner)
    requires p in ps && forall a, b :: 0 <= a < b < |ps| ==> ps[a].id != ps[b].id
    ensures Updated(ps, p) == ps
  {
    var i :| 0 <= i < |ps| && ps[i] == p;
  }

  // ===========================================================================
  // Editing one field

  /** The fields the edit form offers. */
  datatype Field = Name | Type | Sector | Country | Region | Status | StartDate | ContactPerson | Email | Description

  /** The text the form shows for a field; a missing region shows as empty. */
  function FieldValue(p: Partner, f: Field): string
  {
    match f
    case Name => p.name
    case Type => p.partnerType
    case Sector => p.sector
    case Country => p.country
    case Region => if p.region.Some? then p.region.value else ""
    case Status => p.status
    case StartDate => p.startDate
    case ContactPerson => p.contactPerson
    case Email => p.email
    case Description => p.description
  }

  /** `{...editedPartner, [field]: value}`. */
  function WithField(p: Partner, f: Field, v: string): (r: Partner)
    ensures FieldValue(r, f) == v
    ensures forall g :: g != f ==> FieldValue(r, g) == FieldValue(p, g)
    ensures r.id == p.id && r.mainContactPerson == p.mainContactPerson && r.sdgAlignment == p.sdgAlignment
    ensures r.focusAreas == p.focusAreas && r.projects == p.projects && r.contributions == p.contributions
    ensures r.agreements == p.agreements && r.engagements == p.engagements && r.connections == p.connections
  {
    match f
    case Name => p.(name := v)
    case Type => p.(partnerType := v)
    case Sector => p.(sector := v)
    case Country => p.(country := v)
    case Region => p.(region := Some(v))
    case Status => p.(status := v)
    case StartDate => p.(startDate := v)
    case ContactPerson => p.(contactPerson := v)
    case Email => p.(email := v)
    case Description => p.(description := v)
  }

  /** Writing a field back with the text it showed undoes an edit, except
      that a missing region comes back as an empty one; a second edit of a
      field overrides the first. */
  lemma EditUndo(p: Partner, f: Field, v: string, w: string)
    ensures WithField(WithField(p, f, v), f, FieldValue(p, f))
         == if f == Region && p.region.None? then p.(region := Some("")) else p
    ensures forall g :: FieldValue(WithField(WithField(p, f, v), f, FieldValue(p, f)), g) == FieldValue(p, g)
    ensures WithField(WithField(p, f, v), f, w) == WithField(p, f, w)
  {
  }

  // ===========================================================================
  // Logging an activity

  datatype ActivityForm = ActivityForm(date: string, kind: string, notes: string)

  /** The form as it opens, and as it is reset after a submit. */
  function BlankForm(today: string): ActivityForm
  {
    ActivityForm(today, "Meeting", "")
  }

  /** The partner with the form appended as its newest engagement. */
  function WithActivity(p: Partner, form: ActivityForm): (r: Partner)
    ensures r.engagements.Some? && |r.engagements.value| == |OrEmpty(p.engagements)| + 1
    ensures r.engagements.value[..|OrEmpty(p.engagements)|] == OrEmpty(p.engagements)
    ensures var e := r.engagements.value[|r.engagements.value| - 1];
      e.id == |OrEmpty(p.engagements)| + 1 && e.date == form.date && e.kind == form.kind && e.notes == form.notes
    ensures r.(engagements := p.engagements) == p
  {
    var activity := Engagement(if p.engagements.Some? then |p.engagements.value| + 1 else 1, form.date, form.kind, form.notes);
    assert (OrEmpty(p.engagements) + [activity])[..|OrEmpty(p.engagements)|] == OrEmpty(p.engagements);
    p.(engagements := if p.engagements.Some? then Some(p.engagements.value + [activity]) else Some([activity]))
  }

  // ===========================================================================
  // The page's state

  class PartnerDetailView {
    const store: PartnerStore
    const param: string
    var tabValue: nat
    var editing: bool
    var confirmDelete: bool
    var editedPartner: Option<Partner>
    var newActivity: ActivityForm
    var activityDialogOpen: bool

    /** `today` stands for the ISO date of the clock when the page mounts. */
    constructor(s: PartnerStore, routeParam: string, today: string)
      ensures store == s && param == routeParam && tabValue == 0 && !editing && !confirmDelete
      ensures editedPartner == FindPartner(s.partners, routeParam)
      ensures newActivity == BlankForm(today) && !activityDialogOpen
    {
      store, param := s, routeParam;
      tabValue, editing, confirmDelete := 0, false, false;
      editedPartner := FindPartner(s.partners, routeParam);
      newActivity, activityDialogOpen := BlankForm(today), false;
    }

    /** The partner shown; None is the not-found view. */
    function Current(): Option<Partner>
      reads this, store
    {
      FindPartner(store.partners, param)
    }

    /** While editing there is a copy to commit. */
    predicate Valid()
      reads this
    {
      editing ==> editedPartner.Some?
    }

    /** Save or Edit: leaving edit mode commits the copy to the store; entering
        it copies the current partner. The buttons exist only on the found
        view. */
    method EditToggle()
      requires Valid() && Current().Some?
      modifies this, store
      ensures Valid() && editing == !old(editing)
      ensures old(editing) ==> store.partners == Updated(old(store.partners), old(editedPartner).value)
                               && editedPartner == old(editedPartner)
      ensures !old(editing) ==> store.partners == old(store.partners) && editedPartner == old(Current())
      ensures tabValue == old(tabValue) && confirmDelete == old(confirmDelete)
      ensures newActivity == old(newActivity) && activityDialogOpen == old(activityDialogOpen)
    {
      if editing {
        store.UpdatePartner(editedPartner.value);
      } else {
        editedPartner := FindPartner(store.partners, param);
      }
      editing := !editing;
    }

    /** Cancel leaves edit mode and commits nothing. */
    method Cancel()
      modifies this
      ensures !editing && Valid()
      ensures editedPartner == old(editedPartner) && tabValue == old(tabValue) && confirmDelete == old(confirmDelete)
      ensures newActivity == old(newActivity) && activityDialogOpen == old(activityDialogOpen)
    {
      editing := false;
    }

    /** An edit in the form changes the named field of the copy and nothing
        else; the form is on screen only in edit mode. */
    method EditChange(f: Field, v: string)
      requires Valid() && editing
      modifies this
      ensures Valid() && editing
      ensures editedPartner == Some(WithField(old(editedPartner).value, f, v))
      ensures tabValue == old(tabValue) && confirmDelete == old(confirmDelete)
      ensures newActivity == old(newActivity) && activityDialogOpen == old(activityDialogOpen)
    {
      editedPartner := Some(WithField(editedPartner.value, f, v));
    }

    method OpenActivityDialog()
      modifies this
      ensures activityDialogOpen
      ensures editing == old(editing) && editedPartner == old(editedPartner) && tabValue == old(tabValue)
      ensures confirmDelete == old(confirmDelete) && newActivity == old(newActivity)
    {
      activityDialogOpen := true;
    }

    method EditActivity(form: ActivityForm)
      modifies this
      ensures newActivity == form
      ensures editing == old(editing) && editedPartner == old(editedPartner) && tabValue == old(tabValue)
      ensures confirmDelete == old(confirmDelete) && activityDialogOpen == old(activityDialogOpen)
    {
      newActivity := form;
    }

    /** Logs the form's activity on the current partner, closes the dialog and
        resets the form to a blank meeting of `today`. */
    method SubmitActivity(today: string)
      requires Current().Some?
      modifies this, store
      ensures store.partners == Updated(old(store.partners), WithActivity(old(Current()).value, old(newActivity)))
      ensures Current() == Some(WithActivity(old(Current()).value, old(newActivity)))
      ensures !activityDialogOpen && newActivity == BlankForm(today)
      ensures editing == old(editing) && editedPartner == old(editedPartner) && tabValue == old(tabValue)
      ensures confirmDelete == old(confirmDelete)
    {
      var p := FindPartner(store.partners, param).value;
      var updated := WithActivity(p, newActivity);
      FindAfterUpdate(store.partners, param, updated);
      store.UpdatePartner(updated);
      activityDialogOpen := false;
      newActivity := BlankForm(today);
    }

    method AskDelete()
      modifies this
      ensures confirmDelete
      ensures editing == old(editing) && editedPartner == old(editedPartner) && tabValue == old(tabValue)
      ensures newActivity == old(newActivity) && activityDialogOpen == old(activityDialogOpen)
    {
      confirmDelete := true;
    }

    /** The confirmation's Cancel button, and closing it by its backdrop. */
    method CancelDelete()
      modifies this
      ensures !confirmDelete
      ensures editing == old(editing) && editedPartner == old(editedPartner) && tabValue == old(tabValue)
      ensures newActivity == old(newActivity) && activityDialogOpen == old(activityDialogOpen)
    {
      confirmDelete := false;
    }

    /** The activity dialog's Cancel button, and closing it by its backdrop:
        the form keeps what was typed. */
    method CloseActivityDialog()
      modifies this
      ensures !activityDialogOpen
      ensures editing == old(editing) && editedPartner == old(editedPartner) && tabValue == old(tabValue)
      ensures confirmDelete == old(confirmDelete) && newActivity == old(newActivity)
    {
      activityDialogOpen := false;
    }

    /** Removes every partner with the shown partner's id; the page then
        navigates back to the list. */
    method DeleteConfirm()
      requires Current().Some?
      modifies this, store
      ensures store.partners == Deleted(old(store.partners), old(Current()).value.id)
      ensures Current().None?
      ensures !confirmDelete
      ensures editing == old(editing) && editedPartner == old(editedPartner) && tabValue == old(tabValue)
      ensures newActivity == old(newActivity) && activityDialogOpen == old(activityDialogOpen)
    {
      var id := FindPartner(store.partners, param).value.id;
      DeleteFacts(store.partners, id);
      store.DeletePartner(id);
      confirmDelete := false;
    }
  }
}
