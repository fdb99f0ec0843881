/**
 * The return-request dialog `CreateReturnModal`
 * (components/modals/create-return-modal.tsx): eight text fields edited by
 * their setters, a submit handler that either rejects the draft with a
 * destructive notification or announces it and closes the dialog, and a
 * cancel path that only closes it.
 *
 * The notification hook and the host's `onClose` callback are outside the
 * component; every call to them is recorded, in order, in an output log.
 */
module ReturnModal {
  import opened Wrappers

  /** The eight pieces of state (lines 18-25). */
  datatype Field =
    | ReceiptId | CustomerName | CustomerPhone | ProductName
    | Quantity | Reason | Description | RefundMethod

  datatype Draft = Draft(
    receiptId: string,
    customerName: string,
    customerPhone: string,
    productName: string,
    quantity: string,
    reason: string,
    description: string,
    refundMethod: string)

  /** Every field starts as the empty string. */
  const Blank := Draft("", "", "", "", "", "", "", "")

  function Get(d: Draft, f: Field): string {
    match f
    case ReceiptId => d.receiptId
    case CustomerName => d.customerName
    case CustomerPhone => d.customerPhone
    case ProductName => d.productName
    case Quantity => d.quantity
    case Reason => d.reason
    case Description => d.description
    case RefundMethod => d.refundMethod
  }

  /** What one setter does (lines 64-137): that field takes the value, no other field moves. */
  function Put(d: Draft, f: Field, v: string): (r: Draft)
    ensures Get(r, f) == v
    ensures forall g :: g != f ==> Get(r, g) == Get(d, g)
  {
    match f
    case ReceiptId => d.(receiptId := v)
    case CustomerName => d.(customerName := v)
    case CustomerPhone => d.(customerPhone := v)
    case ProductName => d.(productName := v)
    case Quantity => d.(quantity := v)
    case Reason => d.(reason := v)
    case Description => d.(description := v)
    case RefundMethod => d.(refundMethod := v)
  }

  /** The fields whose labels carry an asterisk: all eight. */
  const Labelled: set<Field> :=
    {ReceiptId, CustomerName, CustomerPhone, ProductName, Quantity, Reason, Description, RefundMethod}

  /** The fields the submit check reads: all but the description. */
  const Checked: set<Field> := Labelled - {Description}

  /** The guard of line 29, negated: no checked field is the empty (falsy) string. */
  predicate CanSubmit(d: Draft) {
    !(d.receiptId == "" || d.customerName == "" || d.customerPhone == "" || d.productName == ""
      || d.quantity == "" || d.reason == "" || d.refundMethod == "")
  }

  datatype Variant = Default | Destructive

  datatype Toast = Toast(title: string, description: string, variant: Variant)

  /** A call the component makes to the outside. */
  datatype Output = ShowToast(toast: Toast) | CallOnClose

  const MissingInformation := Toast("Missing Information", "Please fill in all required fields.", Destructive)

  function Created(customerName: string): Toast {
    Toast("Return Request Created", "Return request for " + customerName + " has been submitted for review.", Default)
  }

  /** What `handleSubmit` emits on a draft (lines 28-43). */
  function SubmitOutputs(d: Draft): seq<Output> {
    if !CanSubmit(d) then [ShowToast(MissingInformation)]
    else [ShowToast(Created(d.customerName)), CallOnClose]
  }

  predicate OccursAt(s: string, part: string, k: int) {
    0 <= k <= |s| - |part| && s[k..k + |part|] == part
  }

  ghost predicate Contains(s: string, part: string) {
    exists k :: OccursAt(s, part, k)
  }

  function CountToasts(outs: seq<Output>): nat {
    if outs == [] then 0
    else CountToasts(outs[..|outs| - 1]) + if outs[|outs| - 1].ShowToast? then 1 else 0
  }

  function CountCloses(outs: seq<Output>): nat {
    if outs == [] then 0
    else CountCloses(outs[..|outs| - 1]) + if outs[|outs| - 1].CallOnClose? then 1 else 0
  }

  // ---------------------------------------------------------------------
  // The submit rule.

  /** Submit is accepted exactly when every checked field is non-empty. */
  lemma {:induction false} CanSubmitIff(d: Draft)
    ensures CanSubmit(d) <==> forall f :: f in Checked ==> Get(d, f) != ""
  {
    if !CanSubmit(d) {
      var f :| f in Checked && Get(d, f) == "" by {
        if d.receiptId == "" { assert Get(d, ReceiptId) == ""; }
        else if d.customerName == "" { assert Get(d, CustomerName) == ""; }
        else if d.customerPhone == "" { assert Get(d, CustomerPhone) == ""; }
        else if d.productName == "" { assert Get(d, ProductName) == ""; }
        else if d.quantity == "" { assert Get(d, Quantity) == ""; }
        else if d.reason == "" { assert Get(d, Reason) == ""; }
        else { assert Get(d, RefundMethod) == ""; }
      }
    }
  }

  /** The description is never looked at, although its label marks it required. */
  lemma {:induction false} DescriptionNotChecked(d: Draft, v: string)
    ensures CanSubmit(Put(d, Description, v)) == CanSubmit(d)
    ensures Description in Labelled && Description !in Checked
  {
  }

  /** A non-empty string of blanks, tabs or line breaks. */
  predicate IsBlank(s: string) {
    |s| >= 1 && forall k :: 0 <= k < |s| ==> s[k] == ' ' || s[k] == '\t' || s[k] == '\n' || s[k] == '\r'
  }

  /**
   * Only emptiness is checked: a quantity of "0" or a field of blanks passes,
   * whatever the number input's `min="1"` suggests.
   */
  lemma {:induction false} OnlyEmptinessChecked(d: Draft)
    requires forall f :: f in Checked ==> Get(d, f) == "0" || IsBlank(Get(d, f))
    ensures CanSubmit(d)
  {
    CanSubmitIff(d);
  }

  /**
   * Every submit emits exactly one notification. A rejected draft gets the
   * destructive "Missing Information" one and `onClose` is not called; an
   * accepted draft gets "Return Request Created" naming the customer, and
   * then `onClose` exactly once.
   */
  lemma {:induction false} SubmitOutcome(d: Draft)
    ensures CountToasts(SubmitOutputs(d)) == 1
    ensures SubmitOutputs(d)[0].ShowToast?
    ensures CountCloses(SubmitOutputs(d)) == if CanSubmit(d) then 1 else 0
    ensures !CanSubmit(d) ==>
      SubmitOutputs(d) == [ShowToast(MissingInformation)] && MissingInformation.variant == Destructive
    ensures CanSubmit(d) ==>
      && Last(SubmitOutputs(d)) == CallOnClose
      && SubmitOutputs(d)[0].toast.title == "Return Request Created"
      && SubmitOutputs(d)[0].toast.variant == Default
      && Contains(SubmitOutputs(d)[0].toast.description, d.customerName)
  {
    var outs := SubmitOutputs(d);
    if CanSubmit(d) {
      assert outs[..|outs| - 1] == [outs[0]] && [outs[0]][..0] == [];
      assert CountToasts([outs[0]]) == 1 && CountCloses([outs[0]]) == 0;
      var desc := Created(d.customerName).description;
      assert OccursAt(desc, d.customerName, 19);
    } else {
      assert outs[..0] == [];
    }
  }

  /** Cancel and the X button call `onClose` once and emit no notification. */
  lemma {:induction false} CancelOutcome(d: Draft)
    ensures Step(d, Cancel).0 == d
    ensures CountToasts(Step(d, Cancel).1) == 0 && CountCloses(Step(d, Cancel).1) == 1
  {
  }

  // ---------------------------------------------------------------------
  // A session of user actions.

  datatype Event = Edit(field: Field, value: string) | Submit | Cancel

  /** One user action: the new draft and what the component emitted. */
  function Step(d: Draft, e: Event): (Draft, seq<Output>) {
    match e
    case Edit(f, v) => (Put(d, f, v), [])
    case Submit => (d, SubmitOutputs(d))
    case Cancel => (d, [CallOnClose])
  }

  /** The draft and the output log after a sequence of actions from draft `d`. */
  function Replay(d: Draft, events: seq<Event>): (Draft, seq<Output>) {
    if events == [] then (d, [])
    else
      var (d', outs) := Replay(d, events[..|events| - 1]);
      var (d'', more) := Step(d', Last(events));
      (d'', outs + more)
  }

  function CountSubmits(events: seq<Event>): nat {
    if events == [] then 0
    else CountSubmits(events[..|events| - 1]) + if Last(events).Submit? then 1 else 0
  }

  predicate NoEdits(events: seq<Event>) {
    forall k :: 0 <= k < |events| ==> !events[k].Edit?
  }

  lemma {:induction false} CountToastsAppend(a: seq<Output>, b: seq<Output>)
    ensures CountToasts(a + b) == CountToasts(a) + CountToasts(b)
    decreases |b|
  {
    if b == [] {
      assert a + b == a;
    } else {
      assert (a + b)[..|a + b| - 1] == a + b[..|b| - 1];
      CountToastsAppend(a, b[..|b| - 1]);
    }
  }

  /** Over any session, the number of notifications is the number of submit attempts. */
  lemma {:induction false} ToastPerSubmit(d: Draft, events: seq<Event>)
    ensures CountToasts(Replay(d, events).1) == CountSubmits(events)
  {
    if events != [] {
      var init := events[..|events| - 1];
      ToastPerSubmit(d, init);
      var (d', outs) := Replay(d, init);
      var more := Step(d', Last(events)).1;
      CountToastsAppend(outs, more);
      match Last(events)
      case Edit(_, _) =>
      case Submit => SubmitOutcome(d');
      case Cancel => assert more[..0] == [];
    }
  }

  /** Submitting and cancelling never change a field; only the setters do. */
  lemma {:induction false} OnlyEditsChangeDraft(d: Draft, events: seq<Event>)
    requires NoEdits(events)
    ensures Replay(d, events).0 == d
  {
    if events != [] {
      OnlyEditsChangeDraft(d, events[..|events| - 1]);
    }
  }

  // ---------------------------------------------------------------------
  // The component.

  class ReturnForm {
    var receiptId: string
    var customerName: string
    var customerPhone: string
    var productName: string
    var quantity: string
    var reason: string
    var description: string
    var refundMethod: string
    /** Calls made to the notification hook and to `onClose`, in order. */
    var outputs: seq<Output>

    function Current(): Draft
      reads this
    {
      Draft(receiptId, customerName, customerPhone, productName, quantity, reason, description, refundMethod)
    }

    /** Mounting: every field empty, nothing emitted yet. */
    constructor ()
      ensures Current() == Blank && outputs == []
    {
      receiptId, customerName, customerPhone, productName := "", "", "", "";
      quantity, reason, description, refundMethod := "", "", "", "";
      outputs := [];
    }

    /** One of the eight setters, called by an input's change handler (lines 64-137). */
    method Edit(f: Field, v: string)
      modifies this
      ensures Current() == Put(old(Current()), f, v)
      ensures outputs == old(outputs)
    {
      match f
      case ReceiptId => receiptId := v;
      case CustomerName => customerName := v;
      case CustomerPhone => customerPhone := v;
      case ProductName => productName := v;
      case Quantity => quantity := v;
      case Reason => reason := v;
      case Description => description := v;
      case RefundMethod => refundMethod := v;
    }

    /** `toast({ ... })` */
    method Notify(t: Toast)
      modifies this`outputs
      ensures outputs == old(outputs) + [ShowToast(t)]
    {
      outputs := outputs + [ShowToast(t)];
    }

    /**
     * `onClose()`: the X button (line 53) and the Cancel button (line 162)
     * call it directly, and `handleSubmit` calls it after a success.
     */
    method OnClose()
      modifies this`outputs
      ensures outputs == old(outputs) + [CallOnClose]
    {
      outputs := outputs + [CallOnClose];
    }

    /** `handleSubmit` (lines 28-43); no field is written. */
    method HandleSubmit()
      modifies this`outputs
      ensures Current() == old(Current())
      ensures outputs == old(outputs) + SubmitOutputs(Current())
    {
      if receiptId == "" || customerName == "" || customerPhone == "" || productName == ""
         || quantity == "" || reason == "" || refundMethod == ""
      {
        Notify(MissingInformation);
        return;
      }
      Notify(Created(customerName));
      OnClose();
    }
  }

  /**
   * A session: each user action goes to the handler the dialog wires it to,
   * a change handler's setter, `handleSubmit`, or `onClose` for Cancel and X.
   */
  method Run(form: ReturnForm, events: seq<Event>)
    modifies form
    ensures form.Current() == Replay(old(form.Current()), events).0
    ensures form.outputs == old(form.outputs) + Replay(old(form.Current()), events).1
  {
    var k := 0;
    while k < |events|
      invariant 0 <= k <= |events|
      invariant form.Current() == Replay(old(form.Current()), events[..k]).0
      invariant form.outputs == old(form.outputs) + Replay(old(form.Current()), events[..k]).1
    {
      assert events[..k + 1][..k] == events[..k];
      match events[k] {
        case Edit(f, v) => form.Edit(f, v);
        case Submit => form.HandleSubmit();
        case Cancel => form.OnClose();
      }
      k := k + 1;
    }
    assert events[..k] == events;
  }
}
