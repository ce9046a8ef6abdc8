/**
 * The inbound side: the payment-status notification the checkout service
 * posts back, the order it updates, the audit note written on it and the
 * acknowledgement returned.
 */
module Notifications {
  import opened Wrappers
  import Text

  /** The decoded notification body. `accountNumber` is the order id as text. */
  datatype Notification = Notification(
    accountNumber: string,
    requestStatusCode: int,
    checkoutRequestID: string,
    merchantTransactionID: string)

  /** The acknowledgement written back for a handled notification. */
  datatype Ack = Ack(
    statusCode: int,
    statusDescription: string,
    receiptNumber: string,
    checkoutRequestID: string,
    merchantTransactionID: string)

  const PartiallyPaid: int := 176
  const PaidInFull: int := 178
  const PaymentAccepted: int := 183

  /** Only the two payment codes change the order; every other code is ignored. */
  predicate IsHandled(code: int) {
    code == PartiallyPaid || code == PaidInFull
  }

  const NotePrefix: string := "Order #"
  const HasBeen: string := " has been "
  const PartialPhrase: string := "partially paid"
  const FullPhrase: string := "paid in full"
  const PartialSuffix: string := HasBeen + PartialPhrase
  const FullSuffix: string := HasBeen + FullPhrase

  /** The audit note added to the order for a handled status code. */
  function NoteFor(code: int, account: string): (note: string)
    requires IsHandled(code)
    ensures NotePrefix <= note
  {
    NotePrefix + account + (if code == PaidInFull then FullSuffix else PartialSuffix)
  }

  /** Reads the status code and account back out of an audit note. */
  function ParseNote(note: string): (r: Option<(int, string)>)
    ensures r.Some? ==> IsHandled(r.value.0) && NoteFor(r.value.0, r.value.1) == note
  {
    var n := |note|;
    if n >= |NotePrefix| + |FullSuffix| && NotePrefix <= note && note[n - |FullSuffix|..] == FullSuffix then
      var account := note[|NotePrefix|..n - |FullSuffix|];
      assert note == NotePrefix + account + FullSuffix by {
        assert note == note[..|NotePrefix|] + account + note[n - |FullSuffix|..];
      }
      Some((PaidInFull, account))
    else if n >= |NotePrefix| + |PartialSuffix| && NotePrefix <= note && note[n - |PartialSuffix|..] == PartialSuffix then
      var account := note[|NotePrefix|..n - |PartialSuffix|];
      assert note == NotePrefix + account + PartialSuffix by {
        assert note == note[..|NotePrefix|] + account + note[n - |PartialSuffix|..];
      }
      Some((PartiallyPaid, account))
    else None
  }

  /** Every note names its status and its account recoverably. */
  lemma NoteRoundTrip(code: int, account: string)
    requires IsHandled(code)
    ensures ParseNote(NoteFor(code, account)) == Some((code, account))
  {
    var note := NoteFor(code, account);
    var n := |note|;
    var suffix := if code == PaidInFull then FullSuffix else PartialSuffix;
    assert note == (NotePrefix + account) + suffix;
    assert note[|NotePrefix|..n - |suffix|] == account;
    assert note[n - |suffix|..] == suffix;
    if code == PartiallyPaid {
      // the partial note ends in "paid", never in "full"
      assert note[n - 1] == 'd';
      assert note[n - |FullSuffix|..] != FullSuffix by {
        assert FullSuffix[|FullSuffix| - 1] == 'l';
      }
    }
  }

  /** A note names the account right after "Order #" and says "paid in full"
      or "partially paid" according to the status. */
  lemma NoteMentionsAccount(code: int, account: string)
    requires IsHandled(code)
    ensures Text.OccursAt(NoteFor(code, account), account, |NotePrefix|)
    ensures code == PaidInFull ==> Text.Contains(NoteFor(code, account), FullPhrase)
    ensures code == PartiallyPaid ==> Text.Contains(NoteFor(code, account), PartialPhrase)
  {
    var suffix := if code == PaidInFull then FullSuffix else PartialSuffix;
    var note := NoteFor(code, account);
    assert note == (NotePrefix + account) + suffix;
    assert Text.OccursAt(NotePrefix + account, account, |NotePrefix|);
    Text.OccursBeforeSuffix(NotePrefix + account, suffix, account, |NotePrefix|);
    var phrase := if code == PaidInFull then FullPhrase else PartialPhrase;
    assert phrase[0..|phrase|] == phrase;
    Text.OccursAfterPrefix(HasBeen, phrase, phrase, 0);
    Text.OccursAfterPrefix(NotePrefix + account, suffix, phrase, |HasBeen|);
  }

  /** The acknowledgement echoes the notification's identifiers with status 183;
      an unhandled code gets none. */
  function Acknowledgement(n: Notification): (a: Option<Ack>)
    ensures a.Some? <==> IsHandled(n.requestStatusCode)
    ensures a.Some? ==> a.value.statusCode == PaymentAccepted
                        && a.value.statusDescription == "Payment accepted"
                        && a.value.receiptNumber == n.accountNumber
                        && a.value.checkoutRequestID == n.checkoutRequestID
                        && a.value.merchantTransactionID == n.merchantTransactionID
  {
    if IsHandled(n.requestStatusCode) then
      Some(Ack(PaymentAccepted, "Payment accepted", n.accountNumber, n.checkoutRequestID, n.merchantTransactionID))
    else None
  }

  /** The calls the handler makes on the order, in the order it makes them. */
  datatype OrderCall = CompletedPayment | ReducedStock | AddedNote(note: string)

  /** The call sequence a notification triggers. */
  function ExpectedCalls(n: Notification): (calls: seq<OrderCall>)
    ensures calls == [] <==> !IsHandled(n.requestStatusCode)
    ensures CompletedPayment in calls <==> n.requestStatusCode == PaidInFull
    ensures n.requestStatusCode == PaidInFull ==> calls[0] == CompletedPayment
    ensures IsHandled(n.requestStatusCode) ==>
              |calls| >= 2 && calls[|calls| - 2] == ReducedStock
              && calls[|calls| - 1] == AddedNote(NoteFor(n.requestStatusCode, n.accountNumber))
    ensures multiset(calls)[ReducedStock] == (if IsHandled(n.requestStatusCode) then 1 else 0)
    ensures multiset(calls)[CompletedPayment] == (if n.requestStatusCode == PaidInFull then 1 else 0)
    ensures |calls| == (if n.requestStatusCode == PaidInFull then 3
                        else if n.requestStatusCode == PartiallyPaid then 2 else 0)
    ensures forall i :: 0 <= i < |calls| && calls[i].AddedNote? ==> i == |calls| - 1
  {
    var code := n.requestStatusCode;
    if !IsHandled(code) then []
    else
      (if code == PaidInFull then [CompletedPayment] else [])
      + [ReducedStock, AddedNote(NoteFor(code, n.accountNumber))]
  }

  /**
   * The shop's order, as far as the handler touches it: whether it is paid,
   * how many times its stock has been reduced, its notes, and the trace of the
   * calls made on it.
   */
  class Order {
    var paid: bool
    var stockReductions: nat
    var notes: seq<string>
    var calls: seq<OrderCall>

    constructor ()
      ensures !paid && stockReductions == 0 && notes == [] && calls == []
    {
      paid, stockReductions, notes, calls := false, 0, [], [];
    }

    /** Marks the order as paid. */
    method PaymentComplete()
      modifies this
      ensures paid
      ensures stockReductions == old(stockReductions) && notes == old(notes)
      ensures calls == old(calls) + [CompletedPayment]
    {
      paid := true;
      calls := calls + [CompletedPayment];
    }

    /** Takes the ordered quantities out of stock. */
    method ReduceOrderStock()
      modifies this
      ensures paid == old(paid) && notes == old(notes)
      ensures stockReductions == old(stockReductions) + 1
      ensures calls == old(calls) + [ReducedStock]
    {
      stockReductions := stockReductions + 1;
      calls := calls + [ReducedStock];
    }

    /** Appends an audit note. */
    method AddOrderNote(note: string)
      modifies this
      ensures paid == old(paid) && stockReductions == old(stockReductions)
      ensures notes == old(notes) + [note]
      ensures calls == old(calls) + [AddedNote(note)]
    {
      notes := notes + [note];
      calls := calls + [AddedNote(note)];
    }
  }
}
