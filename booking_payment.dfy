/** The website's booking payment card: the status tests it derives from a
    booking, the badge colour of a status, the PATCH bodies its two payment
    handlers send, which parts of the card are shown, and the card's own
    state (`paymentMethod`, `isProcessing`, `showPaymentOptions`). */
module BookingPayment {
  import opened JsRuntime

  /** The fields of a booking the rules read; amounts are JavaScript numbers. */
  datatype Booking = Booking(
    id: string,
    monthlyRent: real,
    securityDeposit: real,
    totalAmount: real,
    status: string,
    paymentStatus: string,
    paymentMethod: Option<string>)

  /** Payment is still to be made: both statuses are exactly 'pending'. */
  predicate IsPaymentPending(b: Booking) {
    b.paymentStatus == "pending" && b.status == "pending"
  }

  predicate IsPaymentPaid(b: Booking) {
    b.paymentStatus == "paid"
  }

  predicate IsBookingConfirmed(b: Booking) {
    b.status == "confirmed" || b.status == "active"
  }

  datatype Badge = Green | Yellow | Red | Gray

  /** The CSS classes each badge colour stands for. */
  function BadgeClasses(badge: Badge): string {
    match badge
    case Green => "bg-green-100 text-green-800"
    case Yellow => "bg-yellow-100 text-yellow-800"
    case Red => "bg-red-100 text-red-800"
    case Gray => "bg-gray-100 text-gray-800"
  }

  /** `getStatusBadge(status)`: the colour of a status, compared after
      lower-casing; a missing status is gray. */
  function StatusBadge(status: Option<string>): (r: Badge)
    ensures r == Green <==> status.Some? && (ToLower(status.value) == "confirmed" || ToLower(status.value) == "active")
    ensures r == Yellow <==> status.Some? && ToLower(status.value) == "pending"
    ensures r == Red <==> status.Some? && (ToLower(status.value) == "cancelled" || ToLower(status.value) == "rejected")
  {
    match status
    case None => Gray
    case Some(s) =>
      var key := ToLower(s);
      if key == "confirmed" || key == "active" then Green
      else if key == "pending" then Yellow
      else if key == "cancelled" || key == "rejected" then Red
      else Gray
  }

  /** The badge ignores case: a status and its lower-cased form get the
      same colour. */
  lemma StatusBadgeIgnoresCase(s: string)
    ensures StatusBadge(Some(s)) == StatusBadge(Some(ToLower(s)))
  {
    ToLowerIdempotent(s);
  }

  /** Two statuses that differ only in case get the same colour. */
  lemma StatusBadgeCaseInsensitive(s: string, t: string)
    requires ToLower(s) == ToLower(t)
    ensures StatusBadge(Some(s)) == StatusBadge(Some(t))
  {
    StatusBadgeIgnoresCase(s);
    StatusBadgeIgnoresCase(t);
  }

  /** The exact-match status tests agree with the badge: a confirmed booking
      is green and a booking awaiting payment is yellow. */
  lemma StatusTestsAgreeWithBadge(b: Booking)
    ensures IsBookingConfirmed(b) ==> StatusBadge(Some(b.status)) == Green
    ensures IsPaymentPending(b) ==> StatusBadge(Some(b.status)) == Yellow
  {
    assert "confirmed" == ToLower("confirmed") by { ToLowerIdentity("confirmed"); }
    assert "active" == ToLower("active") by { ToLowerIdentity("active"); }
    assert "pending" == ToLower("pending") by { ToLowerIdentity("pending"); }
  }

  /** What the handlers attach under `paymentDetails`; `paymentDate` is the
      time the handler runs. */
  datatype PaymentDetails =
    | OnlineDetails(transactionId: Option<string>, paymentDate: int, totalPaid: real, securityDepositPaid: real, firstMonthRentPaid: real)
    | OfflineDetails(paymentDate: int)
  {
    function Method(): string {
      if OnlineDetails? then "online" else "offline"
    }
  }

  /** The body of `PATCH /api/bookings/<id>`. */
  datatype Patch = Patch(paymentStatus: string, status: string, paymentDetails: PaymentDetails, studentNotes: Option<string>)

  const OfflineNote: string := "Student has chosen offline payment method. Awaiting payment confirmation from both parties."

  /** The URL both handlers patch. */
  function BookingPath(b: Booking): string {
    "/api/bookings/" + b.id
  }

  /** The body sent after a successful online payment: paid and confirmed,
      with the booking's own amounts as what was paid. */
  function OnlinePatch(b: Booking, paymentId: Option<string>, now: int): (p: Patch)
    ensures p.paymentStatus == "paid" && p.status == "confirmed"
    ensures p.paymentDetails.Method() == "online" && p.paymentDetails.transactionId == paymentId
    ensures p.paymentDetails.totalPaid == b.totalAmount
    ensures p.paymentDetails.securityDepositPaid == b.securityDeposit
    ensures p.paymentDetails.firstMonthRentPaid == b.monthlyRent
    ensures p.paymentDetails.paymentDate == now && p.studentNotes.None?
  {
    Patch("paid", "confirmed", OnlineDetails(paymentId, now, b.totalAmount, b.securityDeposit, b.monthlyRent), None)
  }

  /** The body sent when offline payment is chosen: both statuses stay
      pending. */
  function OfflinePatch(now: int): (p: Patch)
    ensures p.paymentStatus == "pending" && p.status == "pending"
    ensures p.paymentDetails == OfflineDetails(now) && p.paymentDetails.Method() == "offline"
    ensures p.studentNotes == Some(OfflineNote)
  {
    Patch("pending", "pending", OfflineDetails(now), Some(OfflineNote))
  }

  /** The booking as the card sees it after a patch has been stored (the
      statuses and the payment method are taken from the patch). */
  function ApplyPatch(b: Booking, p: Patch): (r: Booking)
    ensures r.id == b.id && r.totalAmount == b.totalAmount
    ensures r.status == p.status && r.paymentStatus == p.paymentStatus
    ensures r.paymentMethod == Some(p.paymentDetails.Method())
  {
    b.(status := p.status, paymentStatus := p.paymentStatus, paymentMethod := Some(p.paymentDetails.Method()))
  }

  // The parts of the card that depend on the rules.

  /** The alert and the "Choose Payment Method" button. */
  predicate ShowsPaymentPrompt(b: Booking, showPaymentOptions: bool) {
    IsPaymentPending(b) && !showPaymentOptions
  }

  /** The panel with the online/offline choice. */
  predicate ShowsPaymentOptions(b: Booking, showPaymentOptions: bool) {
    showPaymentOptions && IsPaymentPending(b)
  }

  /** "Booking Confirmed!". */
  predicate ShowsConfirmedNotice(b: Booking) {
    IsBookingConfirmed(b) && IsPaymentPaid(b)
  }

  /** "Offline Payment Selected". */
  predicate ShowsOfflineNotice(b: Booking) {
    b.paymentMethod == Some("offline") && !IsPaymentPaid(b)
  }

  /** A pending booking shows exactly one of the prompt and the options
      panel; any other booking shows neither, so payment is offered only
      while it is pending. */
  lemma PaymentOffersOnlyWhilePending(b: Booking, showPaymentOptions: bool)
    ensures ShowsPaymentPrompt(b, showPaymentOptions) || ShowsPaymentOptions(b, showPaymentOptions) <==> IsPaymentPending(b)
    ensures !(ShowsPaymentPrompt(b, showPaymentOptions) && ShowsPaymentOptions(b, showPaymentOptions))
  {
  }

  /** The confirmed notice and the offline notice never appear together,
      and a booking with the confirmed notice is offered no payment. */
  lemma NoticesExclusive(b: Booking, showPaymentOptions: bool)
    ensures !(ShowsConfirmedNotice(b) && ShowsOfflineNotice(b))
    ensures ShowsConfirmedNotice(b) ==> !ShowsPaymentPrompt(b, showPaymentOptions) && !ShowsPaymentOptions(b, showPaymentOptions)
  {
  }

  /** Once the online patch is stored the booking is confirmed and paid:
      it shows the confirmed notice, a green badge and no payment offer. */
  lemma OnlinePatchConfirms(b: Booking, paymentId: Option<string>, now: int, showPaymentOptions: bool)
    ensures var c := ApplyPatch(b, OnlinePatch(b, paymentId, now));
      ShowsConfirmedNotice(c) && !ShowsOfflineNotice(c) && !IsPaymentPending(c) &&
      !ShowsPaymentPrompt(c, showPaymentOptions) && !ShowsPaymentOptions(c, showPaymentOptions) &&
      StatusBadge(Some(c.status)) == Green
  {
    StatusTestsAgreeWithBadge(ApplyPatch(b, OnlinePatch(b, paymentId, now)));
  }

  /** Once the offline patch is stored the booking still awaits payment: it
      is never confirmed, shows the offline notice and a yellow badge. */
  lemma OfflinePatchStaysPending(b: Booking, now: int)
    ensures var c := ApplyPatch(b, OfflinePatch(now));
      IsPaymentPending(c) && !IsBookingConfirmed(c) && !IsPaymentPaid(c) &&
      ShowsOfflineNotice(c) && !ShowsConfirmedNotice(c) &&
      StatusBadge(Some(c.status)) == Yellow
  {
    StatusTestsAgreeWithBadge(ApplyPatch(b, OfflinePatch(now)));
  }

  datatype PaymentMethod = Online | Offline

  /** What `apiClient.request` gives back to a handler. */
  datatype PatchReply = PatchRejects | PatchResponse(success: bool, error: Option<string>)

  datatype Toast = ToastSuccess(message: string) | ToastError(message: string)

  const OnlineSuccessMessage: string := "Payment successful! Your booking is confirmed automatically."
  const OnlineRefusedMessage: string := "Payment recorded but booking update failed. Please contact support."
  const OnlineFailedMessage: string := "Payment successful but failed to update booking. Please contact support."
  const OfflineSuccessMessage: string := "Offline payment selected. Please contact the owner to arrange payment. Booking will be confirmed after both parties verify payment."
  const OfflineRefusedMessage: string := "Failed to update payment method"
  const OfflineFailedMessage: string := "Failed to select offline payment"

  /** The toast the online handler shows for a reply. */
  function OnlineToast(reply: PatchReply): (t: Toast)
    ensures t.ToastSuccess? <==> reply.PatchResponse? && reply.success
    ensures t.ToastSuccess? ==> t == ToastSuccess(OnlineSuccessMessage)
    ensures reply.PatchRejects? ==> t == ToastError(OnlineFailedMessage)
    ensures reply.PatchResponse? && !reply.success ==> t == ToastError(OnlineRefusedMessage)
  {
    match reply
    case PatchRejects => ToastError(OnlineFailedMessage)
    case PatchResponse(success, _) => if success then ToastSuccess(OnlineSuccessMessage) else ToastError(OnlineRefusedMessage)
  }

  /** The toast the offline handler shows for a reply; a refusal shows the
      server's `error`, or a default when that is missing or empty. */
  function OfflineToast(reply: PatchReply): (t: Toast)
    ensures t.ToastSuccess? <==> reply.PatchResponse? && reply.success
    ensures reply.PatchResponse? && !reply.success && TruthyOpt(reply.error) ==> t == ToastError(reply.error.value)
    ensures reply.PatchResponse? && !reply.success && !TruthyOpt(reply.error) ==> t == ToastError(OfflineRefusedMessage)
    ensures t.ToastSuccess? ==> t == ToastSuccess(OfflineSuccessMessage)
    ensures reply.PatchRejects? ==> t == ToastError(OfflineFailedMessage)
  {
    match reply
    case PatchRejects => ToastError(OfflineFailedMessage)
    case PatchResponse(success, error) =>
      if success then ToastSuccess(OfflineSuccessMessage)
      else if TruthyOpt(error) then ToastError(error.value)
      else ToastError(OfflineRefusedMessage)
  }

  /** The card's state. */
  class PaymentCard {
    const booking: Booking
    var paymentMethod: PaymentMethod
    var isProcessing: bool
    var showPaymentOptions: bool

    constructor (booking: Booking)
      ensures this.booking == booking
      ensures paymentMethod == Online && !isProcessing && !showPaymentOptions
    {
      this.booking := booking;
      paymentMethod := Online;
      isProcessing := false;
      showPaymentOptions := false;
    }

    /** "Choose Payment Method". */
    method OpenOptions()
      modifies this
      ensures showPaymentOptions
      ensures paymentMethod == old(paymentMethod) && isProcessing == old(isProcessing)
    {
      showPaymentOptions := true;
    }

    /** "Cancel". */
    method CancelOptions()
      modifies this
      ensures !showPaymentOptions
      ensures paymentMethod == old(paymentMethod) && isProcessing == old(isProcessing)
    {
      showPaymentOptions := false;
    }

    /** The radio group. */
    method ChooseMethod(m: PaymentMethod)
      modifies this
      ensures paymentMethod == m
      ensures isProcessing == old(isProcessing) && showPaymentOptions == old(showPaymentOptions)
    {
      paymentMethod := m;
    }

    /** `handleOnlinePaymentSuccess`: record the payment; both flags are
        reset in `finally` whatever the reply. `notify` is whether the
        `onPaymentSuccess` and `onStatusChange` callbacks are invoked. */
    method HandleOnlinePaymentSuccess(paymentId: Option<string>, now: int, reply: PatchReply)
      returns (path: string, patch: Patch, toast: Toast, notify: bool)
      modifies this
      ensures path == BookingPath(booking) && patch == OnlinePatch(booking, paymentId, now)
      ensures toast == OnlineToast(reply)
      ensures notify <==> reply.PatchResponse? && reply.success
      ensures !isProcessing && !showPaymentOptions && paymentMethod == old(paymentMethod)
    {
      isProcessing := true;
      path := BookingPath(booking);
      patch := OnlinePatch(booking, paymentId, now);
      toast := OnlineToast(reply);
      notify := reply.PatchResponse? && reply.success;
      isProcessing := false;
      showPaymentOptions := false;
    }

    /** `handleOfflinePayment`: ask for offline payment; both flags are
        reset in `finally` whatever the reply. `notify` is whether the
        `onStatusChange` callback is invoked. */
    method HandleOfflinePayment(now: int, reply: PatchReply)
      returns (path: string, patch: Patch, toast: Toast, notify: bool)
      modifies this
      ensures path == BookingPath(booking) && patch == OfflinePatch(now)
      ensures toast == OfflineToast(reply)
      ensures notify <==> reply.PatchResponse? && reply.success
      ensures !isProcessing && !showPaymentOptions && paymentMethod == old(paymentMethod)
    {
      isProcessing := true;
      path := BookingPath(booking);
      patch := OfflinePatch(now);
      toast := OfflineToast(reply);
      notify := reply.PatchResponse? && reply.success;
      isProcessing := false;
      showPaymentOptions := false;
    }
  }

  /** A student with a pending booking opens the options, picks offline and
      the server accepts: the card is back to its resting flags and, once
      the booking is reloaded, it shows the offline notice and offers the
      payment prompt again. */
  method ChooseOfflineFlow(b: Booking, now: int) returns (resting: bool, offlineNotice: bool, promptAgain: bool)
    requires IsPaymentPending(b)
    ensures resting && offlineNotice && promptAgain
  {
    var card := new PaymentCard(b);
    card.OpenOptions();
    assert ShowsPaymentOptions(b, card.showPaymentOptions);
    card.ChooseMethod(Offline);
    var path, patch, toast, notify := card.HandleOfflinePayment(now, PatchResponse(true, None));
    resting := !card.isProcessing && !card.showPaymentOptions;
    var reloaded := ApplyPatch(b, patch);
    OfflinePatchStaysPending(b, now);
    offlineNotice := ShowsOfflineNotice(reloaded);
    promptAgain := ShowsPaymentPrompt(reloaded, card.showPaymentOptions);
  }
}
