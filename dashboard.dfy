/** The home screen of src/pages/DashboardPage.jsx: counters and recent items,
    the partner card, the kiss button, the shared payment methods and the cache
    of QR-code view URLs. */
module Dashboard {
  import opened Base
  import Seqs
  import Todos
  import Urls
  import Profile
  import Media

  /** The three counters on the home screen. */
  datatype Stats = Stats(todos: nat, urls: nat, pending: nat)

  predicate IsOpen(t: Todos.Todo) { !t.completed }

  /** The counters for a task list and a link list. */
  function ComputeStats(todos: seq<Todos.Todo>, links: seq<Urls.Link>): (s: Stats)
    ensures s.todos == |todos| && s.urls == |links|
    ensures s.pending <= s.todos
    ensures forall i :: 0 <= i < |todos| && !todos[i].completed ==> s.pending > 0
  {
    var open := Seqs.Filter(todos, IsOpen);
    assert forall i :: 0 <= i < |todos| && !todos[i].completed ==> todos[i] in open;
    Stats(|todos|, |links|, |open|)
  }

  /** Pending is the number of open tasks, and it is zero exactly when every task is done. */
  lemma PendingCountsOpenTasks(todos: seq<Todos.Todo>, links: seq<Urls.Link>)
    ensures ComputeStats(todos, links).pending == Seqs.CountIf(todos, IsOpen)
    ensures ComputeStats(todos, links).pending == 0 <==> forall i :: 0 <= i < |todos| ==> todos[i].completed
  {
    Seqs.FilterLength(todos, IsOpen);
    Seqs.CountIfZero(todos, IsOpen);
  }

  /** `xs.slice(0, 3)`: the first three items, or all of them when there are fewer. */
  function Recent<T>(xs: seq<T>): (r: seq<T>)
    ensures |r| <= 3 && |r| <= |xs|
    ensures |xs| >= 3 ==> |r| == 3
    ensures |xs| < 3 ==> r == xs
    ensures r == xs[..|r|]
  {
    Seqs.Take(xs, 3)
  }

  /** The partner update of the data fetch: None when no partner is set (no couple, or
      a couple that is not accepted); otherwise the value set, which is itself absent
      when the other member is missing. */
  function AcceptedPartner(couple: Option<Profile.Couple>, me: string): (r: Option<Option<Profile.Person>>)
    ensures r.Some? <==> couple.Some? && couple.value.status == "accepted"
    ensures r.Some? ==> r.value == Profile.OtherMember(couple.value, me)
  {
    if couple.Some? && couple.value.status == "accepted" then Some(Profile.OtherMember(couple.value, me))
    else None
  }

  /** The partner field after a successful fetch: set as `AcceptedPartner` says, kept otherwise. */
  function PartnerAfterFetch(current: Option<Profile.Person>, couple: Option<Profile.Couple>, me: string): (r: Option<Profile.Person>)
    ensures couple.Some? && couple.value.status == "accepted" ==> r == Profile.OtherMember(couple.value, me)
    ensures !(couple.Some? && couple.value.status == "accepted") ==> r == current
  {
    match AcceptedPartner(couple, me)
    case None => current
    case Some(p) => p
  }

  /** For an accepted couple of two distinct members including `me`, the partner set is
      the other member. */
  lemma AcceptedPartnerIsOther(c: Profile.Couple, me: string)
    requires c.status == "accepted"
    requires c.user2.Some? && c.user1.id != c.user2.value.id
    requires c.user1.id == me || c.user2.value.id == me
    ensures AcceptedPartner(Some(c), me).Some?
    ensures AcceptedPartner(Some(c), me).value.Some?
    ensures AcceptedPartner(Some(c), me).value.value.id != me
  {
    Profile.OtherMemberIsPartner(c, me);
  }

  /** The kiss alerts. The source file stores the kiss emoji mis-encoded, as the four
      characters U+00F0 U+0178 U+2019 U+2039, and that is the text shown. */
  const KissSentMessage := "Kiss sent! \U{00F0}\U{0178}\U{2019}\U{2039}"
  const KissFailedMessage := "Failed to send kiss"

  /** A payment method: `kind` is "link", "upi", "qr_image", ...; for "qr_image" the
      value is the storage key of the uploaded image. */
  datatype Payment = Payment(id: string, kind: string, title: string, value: string)

  /** The add-payment form. */
  datatype PaymentDraft = PaymentDraft(kind: string, title: string, value: string)

  const EmptyDraft := PaymentDraft("link", "", "")
  const QrKind := "qr_image"

  const QrFolder := "image"

  /** The name a QR image is uploaded under: `qr-${Date.now()}-${name}`, with the clock
      reading passed in as the decimal text the template prints. */
  function QrFileName(stamp: string, name: string): (r: string)
    ensures |r| == |stamp| + |name| + 4
    ensures r[..3] == "qr-" && r[3..3 + |stamp|] == stamp && r[3 + |stamp|] == '-' && r[|r| - |name|..] == name
  {
    "qr-" + stamp + "-" + name
  }

  /** The calls of a QR image upload: the upload-URL request for the images folder, then
      the transfer to the URL it returned, made only when the first call succeeded. */
  function QrUploadTrace(f: Media.File, stamp: string, presigned: Result<Media.Presigned>)
    : (r: seq<Media.MediaRequest>)
    ensures 1 <= |r| <= 2
    ensures r[0] == Media.GetUploadUrl(Media.UploadRequest(QrFileName(stamp, f.name), f.mime, QrFolder))
    ensures |r| == 2 <==> presigned.Ok?
    ensures |r| == 2 ==> r[1] == Media.UploadToS3(presigned.value.uploadUrl, f)
  {
    var first := [Media.GetUploadUrl(Media.UploadRequest(QrFileName(stamp, f.name), f.mime, QrFolder))];
    if presigned.Err? then first else first + [Media.UploadToS3(presigned.value.uploadUrl, f)]
  }

  /** How a QR image upload settles: the storage key the upload-URL reply gave when both
      calls succeed, and otherwise the error of the first call that failed. */
  function QrUploadKey(presigned: Result<Media.Presigned>, put: Result<()>): (r: Result<string>)
    ensures r.Ok? <==> presigned.Ok? && put.Ok?
    ensures r.Ok? ==> r.value == presigned.value.key
    ensures presigned.Err? ==> r == Err(presigned.msg)
    ensures presigned.Ok? && put.Err? ==> r == Err(put.msg)
  {
    if presigned.Err? then Err(presigned.msg)
    else if put.Err? then Err(put.msg)
    else Ok(presigned.value.key)
  }

  /** Both payment lists. */
  datatype Payments = Payments(mine: seq<Payment>, partners: seq<Payment>)

  /** Everything the initial fetch brings back. */
  datatype DashboardData = DashboardData(todos: seq<Todos.Todo>, links: seq<Urls.Link>,
                                         couple: Option<Profile.Couple>, payments: Payments)

  function IdOf(p: Payment): string { p.id }

  /** The new payment goes in front of my list; the partner's list is untouched. */
  function AddPayment(ps: Payments, added: Payment): (r: Payments)
    ensures r.mine == [added] + ps.mine && r.partners == ps.partners
  {
    ps.(mine := [added] + ps.mine)
  }

  /** Every payment with that id leaves my list; the partner's list is untouched. */
  function RemovePayment(ps: Payments, id: string): (r: Payments)
    ensures forall i :: 0 <= i < |r.mine| ==> r.mine[i].id != id
    ensures forall i :: 0 <= i < |ps.mine| && ps.mine[i].id != id ==> ps.mine[i] in r.mine
    ensures Seqs.IsSubseq(r.mine, ps.mine)
    ensures forall p :: multiset(r.mine)[p] == if p.id != id then multiset(ps.mine)[p] else 0
    ensures r.partners == ps.partners
  {
    ps.(mine := Seqs.RemoveKey(ps.mine, IdOf, id))
  }

  /** Deleting a payment just added (with a new id) restores both lists. */
  lemma DeleteUndoesAdd(ps: Payments, added: Payment)
    requires forall i :: 0 <= i < |ps.mine| ==> ps.mine[i].id != added.id
    ensures RemovePayment(AddPayment(ps, added), added.id) == ps
  {
    Seqs.RemoveKeyUndoesPrepend(added, ps.mine, IdOf);
  }

  /** A payment whose view URL must be requested: a QR image with no usable cached URL. */
  predicate NeedsUrl(p: Payment, cache: map<string, string>) {
    p.kind == QrKind && !(p.id in cache && cache[p.id] != "")
  }

  /** The storage keys requested for `ps`, in order. */
  function Requested(ps: seq<Payment>, cache: map<string, string>): seq<string>
  {
    if ps == [] then []
    else
      var last := ps[|ps| - 1];
      Requested(ps[..|ps| - 1], cache) + (if NeedsUrl(last, cache) then [last.value] else [])
  }

  /** The URLs gathered for `ps`; `lookup` is `getViewUrl` by storage key, None where
      it throws (the payment is skipped). */
  function NewUrls(ps: seq<Payment>, cache: map<string, string>, lookup: string -> Option<string>): map<string, string>
  {
    if ps == [] then map[]
    else
      var before := NewUrls(ps[..|ps| - 1], cache, lookup);
      var last := ps[|ps| - 1];
      if NeedsUrl(last, cache) && lookup(last.value).Some? then before[last.id := lookup(last.value).value]
      else before
  }

  /** Only uncached QR payments are filled in. */
  lemma {:induction false} NewUrlsOnlyUncached(ps: seq<Payment>, cache: map<string, string>, lookup: string -> Option<string>)
    ensures forall k :: k in NewUrls(ps, cache, lookup) ==> !(k in cache && cache[k] != "")
    ensures forall k :: k in NewUrls(ps, cache, lookup) ==> exists i :: 0 <= i < |ps| && ps[i].id == k && ps[i].kind == QrKind
  {
    if ps != [] {
      var init := ps[..|ps| - 1];
      NewUrlsOnlyUncached(init, cache, lookup);
      forall k | k in NewUrls(ps, cache, lookup)
        ensures exists i :: 0 <= i < |ps| && ps[i].id == k && ps[i].kind == QrKind
      {
        if k in NewUrls(init, cache, lookup) {
          var i :| 0 <= i < |init| && init[i].id == k && init[i].kind == QrKind;
          assert ps[i] == init[i];
        } else {
          assert ps[|ps| - 1].id == k;
        }
      }
    }
  }

  /** The payment behind the `j`-th requested key: an uncached QR payment holding that key. */
  lemma {:induction false} RequestedSource(ps: seq<Payment>, cache: map<string, string>, j: nat) returns (i: nat)
    requires j < |Requested(ps, cache)|
    ensures i < |ps| && NeedsUrl(ps[i], cache) && ps[i].value == Requested(ps, cache)[j]
  {
    var init := ps[..|ps| - 1];
    var last := ps[|ps| - 1];
    var before := Requested(init, cache);
    assert Requested(ps, cache) == before + (if NeedsUrl(last, cache) then [last.value] else []);
    if j < |before| {
      i := RequestedSource(init, cache, j);
      assert ps[i] == init[i];
    } else {
      i := |ps| - 1;
    }
  }

  /** `key` is the storage key of an uncached QR payment of `ps`. */
  predicate UncachedKey(ps: seq<Payment>, cache: map<string, string>, key: string) {
    exists i :: 0 <= i < |ps| && NeedsUrl(ps[i], cache) && ps[i].value == key
  }

  /** Only the storage keys of uncached QR payments are requested. */
  lemma RequestedOnlyUncached(ps: seq<Payment>, cache: map<string, string>)
    ensures forall j :: 0 <= j < |Requested(ps, cache)| ==> UncachedKey(ps, cache, Requested(ps, cache)[j])
  {
    forall j | 0 <= j < |Requested(ps, cache)|
      ensures UncachedKey(ps, cache, Requested(ps, cache)[j])
    {
      var i := RequestedSource(ps, cache, j);
    }
  }

  /** The cache with the newly found URLs merged in, a found URL winning over a cached
      one for the same key; an empty find leaves the cache as it was. */
  function MergeQrUrls(cache: map<string, string>, found: map<string, string>): (r: map<string, string>)
    ensures r.Keys == cache.Keys + found.Keys
    ensures forall k :: k in found ==> r[k] == found[k]
    ensures forall k :: k in cache && k !in found ==> r[k] == cache[k]
  {
    if |found| > 0 then cache + found else cache
  }

  /** A merge keeps every cached key, and never overwrites a usable cached URL. */
  lemma MergeKeepsCache(ps: seq<Payment>, cache: map<string, string>, lookup: string -> Option<string>)
    ensures var r := MergeQrUrls(cache, NewUrls(ps, cache, lookup));
            cache.Keys <= r.Keys && forall k :: k in cache && cache[k] != "" ==> r[k] == cache[k]
  {
    NewUrlsOnlyUncached(ps, cache, lookup);
  }

  /** The loop of `fetchQrUrls`: visits the payments in order, requesting a view URL for
      each uncached QR payment; returns the URLs gathered and the keys requested. */
  method CollectQrUrls(all: seq<Payment>, cache: map<string, string>, lookup: string -> Option<string>)
    returns (found: map<string, string>, requested: seq<string>)
    ensures found == NewUrls(all, cache, lookup)
    ensures requested == Requested(all, cache)
  {
    found := map[];
    requested := [];
    var i := 0;
    while i < |all|
      invariant 0 <= i <= |all|
      invariant found == NewUrls(all[..i], cache, lookup)
      invariant requested == Requested(all[..i], cache)
    {
      var p := all[i];
      assert all[..i + 1][..i] == all[..i];
      if p.kind == QrKind && !(p.id in cache && cache[p.id] != "") {
        requested := requested + [p.value];
        var url := lookup(p.value);
        if url.Some? {
          found := found[p.id := url.value];
        }
      }
      i := i + 1;
    }
    assert all[..|all|] == all;
  }

  class DashboardPage {
    const me: string
    var loading: bool
    var stats: Stats
    var recentTodos: seq<Todos.Todo>
    var recentUrls: seq<Urls.Link>
    var partner: Option<Profile.Person>
    var payments: Payments
    var showAddPayment: bool
    var sendingKiss: bool
    var newPayment: PaymentDraft
    var qrFile: Option<Media.File>
    var uploadingQr: bool
    var qrUrls: map<string, string>
    /** The number of kiss requests sent. */
    var kisses: nat
    /** Calls made to the media service for QR images, and payments submitted, oldest first. */
    var qrUploads: seq<Media.MediaRequest>
    var paymentRequests: seq<PaymentDraft>
    /** Ids sent to `deletePayment`, oldest first. */
    var deleteRequests: seq<string>
    /** Messages shown with `alert`, oldest first. */
    var alerts: seq<string>

    constructor (me: string)
      ensures this.me == me && loading && stats == Stats(0, 0, 0) && recentTodos == [] && recentUrls == []
      ensures partner == None && payments == Payments([], []) && !showAddPayment && !sendingKiss
      ensures newPayment == EmptyDraft && qrFile == None && !uploadingQr && qrUrls == map[]
      ensures kisses == 0 && qrUploads == [] && paymentRequests == [] && deleteRequests == [] && alerts == []
    {
      this.me := me;
      loading := true;
      stats := Stats(0, 0, 0);
      recentTodos := [];
      recentUrls := [];
      partner := None;
      payments := Payments([], []);
      showAddPayment := false;
      sendingKiss := false;
      newPayment := EmptyDraft;
      qrFile := None;
      uploadingQr := false;
      qrUrls := map[];
      kisses := 0;
      qrUploads := [];
      paymentRequests := [];
      deleteRequests := [];
      alerts := [];
    }

    /** `fetchDashboardData()`: on success the counters, recent slices and payments are
        set, and the partner only for an accepted couple; loading ends either way. */
    method FetchDashboardData(outcome: Result<DashboardData>)
      modifies this`stats, this`recentTodos, this`recentUrls, this`payments, this`partner, this`loading
      ensures outcome.Ok? ==>
                var d := outcome.value;
                && stats == ComputeStats(d.todos, d.links)
                && recentTodos == Recent(d.todos) && recentUrls == Recent(d.links)
                && payments == d.payments
                && partner == PartnerAfterFetch(old(partner), d.couple, me)
      ensures outcome.Err? ==>
                stats == old(stats) && recentTodos == old(recentTodos) && recentUrls == old(recentUrls)
                && payments == old(payments) && partner == old(partner)
      ensures !loading
      ensures qrUrls == old(qrUrls) && sendingKiss == old(sendingKiss) && newPayment == old(newPayment)
      ensures kisses == old(kisses) && alerts == old(alerts) && paymentRequests == old(paymentRequests)
      ensures qrUploads == old(qrUploads)
    {
      if outcome.Ok? {
        ApplyStats(outcome.value);
        ApplyRecent(outcome.value);
        ApplyCouple(outcome.value);
      }
      loading := false;
    }

    /** The success path of `fetchDashboardData`: the counters come from the reply's
        lists. */
    method ApplyStats(d: DashboardData)
      modifies this`stats
      ensures stats == ComputeStats(d.todos, d.links)
      ensures recentTodos == old(recentTodos) && recentUrls == old(recentUrls)
      ensures payments == old(payments) && partner == old(partner)
      ensures loading == old(loading) && qrUrls == old(qrUrls) && sendingKiss == old(sendingKiss)
      ensures newPayment == old(newPayment) && kisses == old(kisses) && alerts == old(alerts)
      ensures paymentRequests == old(paymentRequests) && qrUploads == old(qrUploads)
    {
      stats := ComputeStats(d.todos, d.links);
    }

    /** The three most recent tasks and links of the reply. */
    method ApplyRecent(d: DashboardData)
      modifies this`recentTodos, this`recentUrls
      ensures recentTodos == Recent(d.todos) && recentUrls == Recent(d.links)
      ensures stats == old(stats) && payments == old(payments) && partner == old(partner)
      ensures loading == old(loading) && qrUrls == old(qrUrls) && sendingKiss == old(sendingKiss)
      ensures newPayment == old(newPayment) && kisses == old(kisses) && alerts == old(alerts)
      ensures paymentRequests == old(paymentRequests) && qrUploads == old(qrUploads)
    {
      recentTodos := Recent(d.todos);
      recentUrls := Recent(d.links);
    }

    /** The rest of the success path: the payments of the reply, and the partner of an
        accepted couple. */
    method ApplyCouple(d: DashboardData)
      modifies this`payments, this`partner
      ensures payments == d.payments && partner == PartnerAfterFetch(old(partner), d.couple, me)
      ensures stats == old(stats) && recentTodos == old(recentTodos) && recentUrls == old(recentUrls)
      ensures loading == old(loading) && qrUrls == old(qrUrls) && sendingKiss == old(sendingKiss)
      ensures newPayment == old(newPayment) && kisses == old(kisses) && alerts == old(alerts)
      ensures paymentRequests == old(paymentRequests) && qrUploads == old(qrUploads)
    {
      payments := d.payments;
      partner := PartnerAfterFetch(partner, d.couple, me);
    }

    /** The first half of `handleSendKiss()`: while a send is in flight nothing happens;
        otherwise the flag is raised and the request goes out. */
    method BeginSendKiss() returns (started: bool)
      modifies this`sendingKiss, this`kisses
      ensures started <==> !old(sendingKiss)
      ensures sendingKiss
      ensures kisses == old(kisses) + (if started then 1 else 0)
      ensures alerts == old(alerts) && payments == old(payments) && qrUrls == old(qrUrls)
      ensures newPayment == old(newPayment) && paymentRequests == old(paymentRequests)
    {
      if sendingKiss {
        return false;
      }
      sendingKiss := true;
      kisses := kisses + 1;
      started := true;
    }

    /** The second half: the result is announced and the flag is cleared either way. */
    method SettleSendKiss(ok: bool)
      modifies this`alerts, this`sendingKiss
      ensures !sendingKiss
      ensures alerts == old(alerts) + [if ok then KissSentMessage else KissFailedMessage]
      ensures kisses == old(kisses) && payments == old(payments) && qrUrls == old(qrUrls)
      ensures newPayment == old(newPayment) && paymentRequests == old(paymentRequests)
    {
      alerts := alerts + [if ok then KissSentMessage else KissFailedMessage];
      sendingKiss := false;
    }

    /** `handleAddPayment(e)`: a QR payment with a file first asks for an upload URL,
        sends the image there and stores its key as the value; the saved payment goes in
        front of my list and the form is reset; any failure is announced and leaves the
        lists and the form as they were. `stamp` is the clock reading in the file name,
        `presigned` and `put` the outcomes of the two upload calls, `added` the saved
        payment. */
    method HandleAddPayment(stamp: string, presigned: Result<Media.Presigned>, put: Result<()>,
                            added: Result<Payment>) returns (sent: Option<PaymentDraft>)
      modifies this`uploadingQr, this`qrUploads, this`alerts, this`paymentRequests
      modifies this`payments, this`showAddPayment, this`newPayment, this`qrFile
      ensures var qr := old(newPayment).kind == QrKind && old(qrFile).Some?;
              && qrUploads == old(qrUploads) + (if qr then QrUploadTrace(old(qrFile).value, stamp, presigned) else [])
              && (sent.None? <==> qr && QrUploadKey(presigned, put).Err?)
              && (sent.Some? ==> sent.value == old(newPayment).(value := if qr then presigned.value.key else old(newPayment).value))
      ensures paymentRequests == old(paymentRequests) + (if sent.Some? then [sent.value] else [])
      ensures sent.Some? && added.Ok? ==>
                payments == AddPayment(old(payments), added.value) && !showAddPayment
                && newPayment == EmptyDraft && qrFile == None && alerts == old(alerts)
      ensures sent.None? || added.Err? ==>
                payments == old(payments) && newPayment == old(newPayment) && qrFile == old(qrFile)
                && showAddPayment == old(showAddPayment)
                && alerts == old(alerts) + ["Failed to add payment method"]
      ensures !uploadingQr
      ensures qrUrls == old(qrUrls) && kisses == old(kisses) && sendingKiss == old(sendingKiss)
    {
      uploadingQr := true;
      var value := newPayment.value;
      sent := None;
      if newPayment.kind == QrKind && qrFile.Some? {
        var f := qrFile.value;
        qrUploads := qrUploads + [Media.GetUploadUrl(Media.UploadRequest(QrFileName(stamp, f.name), f.mime, QrFolder))];
        if presigned.Err? {
          alerts := alerts + ["Failed to add payment method"];
          uploadingQr := false;
          return;
        }
        qrUploads := qrUploads + [Media.UploadToS3(presigned.value.uploadUrl, f)];
        if put.Err? {
          alerts := alerts + ["Failed to add payment method"];
          uploadingQr := false;
          return;
        }
        value := presigned.value.key;
      }
      sent := Some(newPayment.(value := value));
      paymentRequests := paymentRequests + [sent.value];
      if added.Ok? {
        AddSaved(added.value);
      } else {
        alerts := alerts + ["Failed to add payment method"];
      }
      uploadingQr := false;
    }

    /** The success branch of `handleAddPayment`: the saved payment goes in front of my
        list, the form is closed and reset. */
    method AddSaved(p: Payment)
      modifies this`payments, this`showAddPayment, this`newPayment, this`qrFile
      ensures payments == AddPayment(old(payments), p) && !showAddPayment
      ensures newPayment == EmptyDraft && qrFile == None
      ensures alerts == old(alerts) && qrUploads == old(qrUploads) && paymentRequests == old(paymentRequests)
      ensures uploadingQr == old(uploadingQr) && qrUrls == old(qrUrls) && kisses == old(kisses)
      ensures sendingKiss == old(sendingKiss)
    {
      payments := AddPayment(payments, p);
      showAddPayment := false;
      newPayment := EmptyDraft;
      qrFile := None;
    }

    /** `handleDeletePayment(id)`: nothing unless confirmed; then the deletion is
        requested, and every payment with that id leaves my list, or the failure is
        announced. */
    method HandleDeletePayment(id: string, confirmed: bool, outcome: Result<()>)
      modifies this`payments, this`alerts, this`deleteRequests
      ensures !confirmed ==> payments == old(payments) && alerts == old(alerts) && deleteRequests == old(deleteRequests)
      ensures confirmed ==> deleteRequests == old(deleteRequests) + [id]
      ensures confirmed && outcome.Ok? ==> payments == RemovePayment(old(payments), id) && alerts == old(alerts)
      ensures confirmed && outcome.Err? ==> payments == old(payments) && alerts == old(alerts) + ["Failed to delete"]
      ensures qrUrls == old(qrUrls) && newPayment == old(newPayment) && kisses == old(kisses)
      ensures paymentRequests == old(paymentRequests) && sendingKiss == old(sendingKiss)
    {
      if !confirmed {
        return;
      }
      deleteRequests := deleteRequests + [id];
      if outcome.Ok? {
        payments := RemovePayment(payments, id);
      } else {
        alerts := alerts + ["Failed to delete"];
      }
    }

    /** The effect running `fetchQrUrls()` once loading is over: my payments then the
        partner's are visited, and any new URLs are merged into the cache. */
    method FetchQrUrls(lookup: string -> Option<string>) returns (requested: seq<string>)
      modifies this`qrUrls
      ensures old(loading) ==> qrUrls == old(qrUrls) && requested == []
      ensures !old(loading) ==>
                var all := old(payments).mine + old(payments).partners;
                && requested == Requested(all, old(qrUrls))
                && qrUrls == MergeQrUrls(old(qrUrls), NewUrls(all, old(qrUrls), lookup))
      ensures old(qrUrls).Keys <= qrUrls.Keys
      ensures payments == old(payments) && loading == old(loading) && alerts == old(alerts)
      ensures newPayment == old(newPayment) && kisses == old(kisses) && sendingKiss == old(sendingKiss)
    {
      requested := [];
      if loading {
        return;
      }
      var all := payments.mine + payments.partners;
      var found;
      found, requested := CollectQrUrls(all, qrUrls, lookup);
      qrUrls := MergeQrUrls(qrUrls, found);
    }
  }

  /** A second press while the first kiss is in flight sends nothing, and the flag is
      down again once the first one settles. */
  method KissInFlight(d: DashboardPage, ok: bool) returns (first: bool, second: bool)
    requires !d.sendingKiss
    modifies d
    ensures first && !second
    ensures d.kisses == old(d.kisses) + 1 && !d.sendingKiss
  {
    first := d.BeginSendKiss();
    second := d.BeginSendKiss();
    d.SettleSendKiss(ok);
  }
}
