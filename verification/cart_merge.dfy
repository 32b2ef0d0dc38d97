/** `mergeLocalCart`: on login the guest cart is posted to the server one line
    at a time, in stored order, then the gift-wrap flag, then local storage is
    cleared and the server cart fetched. The server is a fake that answers the
    n-th request with the n-th scripted response. */
module CartMerge {
  import opened Js
  import opened CartModel

  /** One request to the cart endpoints. */
  datatype Call =
    | GetCart
    | PostItem(productId: Product, quantity: int, attrs: Attrs)
    | PatchGiftWrap(isGiftWrap: bool)

  /** A scripted answer: success with the cart in the body, or an axios error
      with the server's `response.data.message` (possibly absent) and the
      error's own `message`. */
  datatype Response = Ok(cart: ServerCart) | Fail(serverMessage: Val, message: string)

  datatype MergeResult = Fulfilled(cart: ServerCart) | Rejected(reason: Val)

  /** The answer to the n-th request; once the script runs out the network is
      down. */
  function Answer(responses: seq<Response>, n: nat): Response {
    if n < |responses| then responses[n] else Fail(Undefined, "Network Error")
  }

  /** `error.response?.data?.message || error.message` */
  function RejectReason(r: Response): Val
    requires r.Fail?
  {
    Or(r.serverMessage, Str(r.message))
  }

  /** `item.productId._id || item.productId`: the product id of a snapshot,
      or the bare id as it is. */
  function RequestProduct(p: Product): Product {
    match p
    case Snapshot(id, _, _) => if id != "" then IdOnly(id) else p
    case IdOnly(_) => p
  }

  function PostFor(line: LineItem): Call {
    PostItem(RequestProduct(line.product), line.quantity, line.attrs)
  }

  function Posts(lines: seq<LineItem>): (r: seq<Call>)
    ensures |r| == |lines| && forall i :: 0 <= i < |lines| ==> r[i] == PostFor(lines[i])
  {
    seq(|lines|, i requires 0 <= i < |lines| => PostFor(lines[i]))
  }

  /** The requests a merge issues when every one of them succeeds. */
  function Plan(lines: seq<LineItem>, giftWrap: bool): seq<Call> {
    if |lines| == 0 && !giftWrap then [GetCart]
    else Posts(lines) + (if giftWrap then [PatchGiftWrap(true)] else []) + [GetCart]
  }

  /** The guest cart as the merge reads it: `None` when either key holds
      text that does not parse (`JSON.parse` throws); an empty string or a
      missing key reads as `[]` / `false`. The cart key is read first. */
  function ReadLocal(s: Storage): Option<(seq<LineItem>, bool)> {
    var cart := match s.cart
      case Some(Valid(v)) => Some(v)
      case Some(Corrupt) => None
      case _ => Some([]);
    var wrap := match s.giftWrap
      case Some(Valid(b)) => Some(b)
      case Some(Corrupt) => None
      case _ => Some(false);
    if cart.None? || wrap.None? then None else Some((cart.value, wrap.value))
  }

  /** The position of the first failing answer among the first n, or n. */
  function FirstFailure(responses: seq<Response>, n: nat): (k: nat)
    ensures k <= n
    ensures forall j :: 0 <= j < k ==> Answer(responses, j).Ok?
    ensures k < n ==> Answer(responses, k).Fail?
  {
    if n == 0 then 0
    else
      var k := FirstFailure(responses, n - 1);
      if k < n - 1 then k
      else if Answer(responses, n - 1).Fail? then n - 1
      else n
  }

  /** The merge with no stored items and no gift wrap issues a single fetch. */
  lemma PlanWhenNothingStored(giftWrap: bool)
    ensures !giftWrap ==> Plan([], giftWrap) == [GetCart]
    ensures giftWrap ==> Plan([], giftWrap) == [PatchGiftWrap(true), GetCart]
  {
  }

  /** Otherwise: one add per stored line, in stored order, each with the
      resolved product id, the quantity and the attributes; a gift-wrap
      request, always `true`, only when the stored flag is set and only after
      every add; the fetch last. */
  lemma PlanShape(lines: seq<LineItem>, giftWrap: bool)
    requires |lines| > 0 || giftWrap
    ensures var p := Plan(lines, giftWrap);
            && |p| == |lines| + (if giftWrap then 1 else 0) + 1
            && (forall i :: 0 <= i < |lines| ==> p[i] == PostItem(RequestProduct(lines[i].product), lines[i].quantity, lines[i].attrs))
            && (giftWrap ==> p[|lines|] == PatchGiftWrap(true))
            && p[|p| - 1] == GetCart
            && (forall i :: 0 <= i < |p| && p[i].PatchGiftWrap? ==> giftWrap && i == |lines| && p[i].isGiftWrap)
            && (forall i :: 0 <= i < |p| && p[i].GetCart? ==> i == |p| - 1)
  {
  }

  /** A snapshot is sent as its product id; a bare id is sent unchanged. */
  lemma RequestProductIsId(p: Product)
    requires ProductKey(p) != ""
    ensures RequestProduct(p) == IdOnly(ProductKey(p))
  {
  }

  /** The requests, the storage afterwards and the settled result of a merge,
      stated in closed form: the plan up to and including the first failing
      request. */
  function MergeSpec(storage: Storage, responses: seq<Response>, parseError: string): (seq<Call>, Storage, MergeResult) {
    match ReadLocal(storage)
    case None => ([], storage, Rejected(Str(parseError)))
    case Some((lines, wrap)) =>
      var plan := Plan(lines, wrap);
      var k := FirstFailure(responses, |plan|);
      var log := if k < |plan| then plan[..k + 1] else plan;
      var after := if (|lines| > 0 || wrap) && k >= |plan| - 1 then EmptyStorage else storage;
      var result := if k == |plan| then Fulfilled(Answer(responses, |plan| - 1).cart)
                    else Rejected(RejectReason(Answer(responses, k)));
      (log, after, result)
  }

  /** `mergeLocalCart`. Returns the requests issued, in order, the local
      storage afterwards, and how the thunk settles. */
  method MergeLocalCart(storage: Storage, responses: seq<Response>, parseError: string)
    returns (log: seq<Call>, after: Storage, result: MergeResult)
    ensures (log, after, result) == MergeSpec(storage, responses, parseError)
  {
    log := [];
    after := storage;
    var local := ReadLocal(storage);
    if local.None? {
      result := Rejected(Str(parseError));
      return;
    }
    var localCart := local.value.0;
    var localGiftWrap := local.value.1;
    if |localCart| == 0 && !localGiftWrap {
      var r := Answer(responses, 0);
      log := [GetCart];
      if r.Fail? {
        result := Rejected(RejectReason(r));
      } else {
        result := Fulfilled(r.cart);
      }
      SpecWhenEmpty(storage, responses, parseError);
      return;
    }
    var i := 0;
    while i < |localCart|
      invariant 0 <= i <= |localCart|
      invariant log == Posts(localCart)[..i]
      invariant forall j :: 0 <= j < i ==> Answer(responses, j).Ok?
      invariant after == storage
    {
      var r := Answer(responses, i);
      log := log + [PostFor(localCart[i])];
      if r.Fail? {
        assert log == Posts(localCart)[..i + 1] == Plan(localCart, localGiftWrap)[..i + 1];
        result := Rejected(RejectReason(r));
        SpecAtFailure(storage, responses, parseError, i);
        return;
      }
      i := i + 1;
    }
    assert log == Posts(localCart);
    if localGiftWrap {
      var r := Answer(responses, |localCart|);
      log := log + [PatchGiftWrap(true)];
      if r.Fail? {
        assert log == Plan(localCart, localGiftWrap)[..|localCart| + 1];
        result := Rejected(RejectReason(r));
        SpecAtFailure(storage, responses, parseError, |localCart|);
        return;
      }
    }
    after := EmptyStorage;
    assert forall j :: 0 <= j < |log| ==> Answer(responses, j).Ok?;
    var r := Answer(responses, |log|);
    log := log + [GetCart];
    assert log == Plan(localCart, localGiftWrap);
    if r.Fail? {
      result := Rejected(RejectReason(r));
    } else {
      result := Fulfilled(r.cart);
    }
    SpecAtEnd(storage, responses, parseError);
  }

  /** The specification when nothing is stored: one fetch and its outcome. */
  lemma SpecWhenEmpty(storage: Storage, responses: seq<Response>, parseError: string)
    requires ReadLocal(storage) == Some(([], false))
    ensures var r := Answer(responses, 0);
            MergeSpec(storage, responses, parseError)
              == ([GetCart], storage, if r.Fail? then Rejected(RejectReason(r)) else Fulfilled(r.cart))
  {
    assert FirstFailure(responses, 1) == if Answer(responses, 0).Fail? then 0 else 1;
    assert [GetCart][..1] == [GetCart];
  }

  /** The specification when the request at position i of the plan, an add
      or the gift-wrap request, is the first to fail. */
  lemma SpecAtFailure(storage: Storage, responses: seq<Response>, parseError: string, i: nat)
    requires ReadLocal(storage).Some?
    requires var (lines, wrap) := ReadLocal(storage).value;
             (|lines| > 0 || wrap) && (i < |lines| || (i == |lines| && wrap))
    requires forall j :: 0 <= j < i ==> Answer(responses, j).Ok?
    requires Answer(responses, i).Fail?
    ensures var (lines, wrap) := ReadLocal(storage).value;
            MergeSpec(storage, responses, parseError)
              == (Plan(lines, wrap)[..i + 1], storage, Rejected(RejectReason(Answer(responses, i))))
  {
    var (lines, wrap) := ReadLocal(storage).value;
    var plan := Plan(lines, wrap);
    assert FirstFailure(responses, |plan|) == i;
  }

  /** The specification when every add and the gift-wrap request succeed:
      the whole plan, storage cleared, and the fetch's outcome. */
  lemma SpecAtEnd(storage: Storage, responses: seq<Response>, parseError: string)
    requires ReadLocal(storage).Some?
    requires var (lines, wrap) := ReadLocal(storage).value;
             (|lines| > 0 || wrap)
             && forall j :: 0 <= j < |Plan(lines, wrap)| - 1 ==> Answer(responses, j).Ok?
    ensures var (lines, wrap) := ReadLocal(storage).value;
            var plan := Plan(lines, wrap);
            var r := Answer(responses, |plan| - 1);
            MergeSpec(storage, responses, parseError)
              == (plan, EmptyStorage, if r.Fail? then Rejected(RejectReason(r)) else Fulfilled(r.cart))
  {
    var (lines, wrap) := ReadLocal(storage).value;
    var plan := Plan(lines, wrap);
    var r := Answer(responses, |plan| - 1);
    assert FirstFailure(responses, |plan|) == if r.Fail? then |plan| - 1 else |plan|;
    assert plan[..|plan|] == plan;
  }

  /** Nothing stored and no gift wrap: the only request is one fetch, storage
      is not touched, and the result is that fetch's outcome. */
  lemma MergeNothingStored(storage: Storage, responses: seq<Response>, parseError: string)
    requires ReadLocal(storage) == Some(([], false))
    ensures var m := MergeSpec(storage, responses, parseError);
            && m.0 == [GetCart]
            && m.1 == storage
            && (Answer(responses, 0).Ok? ==> m.2 == Fulfilled(Answer(responses, 0).cart))
            && (Answer(responses, 0).Fail? ==> m.2 == Rejected(RejectReason(Answer(responses, 0))))
  {
    assert FirstFailure(responses, 1) == if Answer(responses, 0).Fail? then 0 else 1;
  }

  /** A value that does not parse rejects before any request and leaves
      storage as it was, whereas the slice's loader reads the same storage as
      an empty cart. */
  lemma MergeCorruptStorage(storage: Storage, responses: seq<Response>, parseError: string)
    requires storage.cart == Some(Corrupt) || storage.giftWrap == Some(Corrupt)
    ensures MergeSpec(storage, responses, parseError) == ([], storage, Rejected(Str(parseError)))
  {
  }

  /** Every request in the log but the last succeeded, the log follows the
      plan in order, and a failed request is the last one issued. */
  lemma MergeLogFollowsPlan(storage: Storage, responses: seq<Response>, parseError: string)
    requires ReadLocal(storage).Some?
    ensures var m := MergeSpec(storage, responses, parseError);
            var plan := Plan(ReadLocal(storage).value.0, ReadLocal(storage).value.1);
            && 1 <= |m.0| <= |plan|
            && m.0 == plan[..|m.0|]
            && (forall j :: 0 <= j < |m.0| - 1 ==> Answer(responses, j).Ok?)
            && (m.2.Rejected? <==> Answer(responses, |m.0| - 1).Fail?)
  {
    var plan := Plan(ReadLocal(storage).value.0, ReadLocal(storage).value.1);
    assert plan[..|plan|] == plan;
  }

  /** Storage is cleared only when every add and the gift-wrap request have
      succeeded, and then the fetch has been issued; any earlier failure
      leaves storage as it was. */
  lemma MergeClearsOnlyAfterSuccess(storage: Storage, responses: seq<Response>, parseError: string)
    requires ReadLocal(storage).Some?
    ensures var m := MergeSpec(storage, responses, parseError);
            var plan := Plan(ReadLocal(storage).value.0, ReadLocal(storage).value.1);
            && (m.1 != storage ==>
                  m.1 == EmptyStorage && m.0 == plan
                  && forall j :: 0 <= j < |plan| - 1 ==> Answer(responses, j).Ok?)
            && (m.2.Rejected? && |m.0| < |plan| ==> m.1 == storage)
  {
  }

  /** On success the log is the whole plan, the returned cart is exactly the
      final fetch's, and storage is cleared unless nothing was stored. */
  lemma MergeSuccess(storage: Storage, responses: seq<Response>, parseError: string)
    requires ReadLocal(storage).Some?
    ensures var m := MergeSpec(storage, responses, parseError);
            var lines := ReadLocal(storage).value.0;
            var wrap := ReadLocal(storage).value.1;
            var plan := Plan(lines, wrap);
            m.2.Fulfilled? ==>
              && m.0 == plan
              && m.2.cart == Answer(responses, |plan| - 1).cart
              && (|lines| > 0 || wrap ==> m.1 == EmptyStorage)
  {
    var plan := Plan(ReadLocal(storage).value.0, ReadLocal(storage).value.1);
    assert plan[..|plan|] == plan;
  }

  /** When only the final fetch fails, storage has already been cleared and
      yet the merge rejects: the guest cart is gone although the thunk failed. */
  lemma MergeFetchOnlyFails(storage: Storage, responses: seq<Response>, parseError: string)
    requires ReadLocal(storage).Some?
    requires var lines := ReadLocal(storage).value.0;
             var wrap := ReadLocal(storage).value.1;
             var plan := Plan(lines, wrap);
             && (|lines| > 0 || wrap)
             && (forall j :: 0 <= j < |plan| - 1 ==> Answer(responses, j).Ok?)
             && Answer(responses, |plan| - 1).Fail?
    ensures var m := MergeSpec(storage, responses, parseError);
            m.1 == EmptyStorage && m.2.Rejected?
  {
    var plan := Plan(ReadLocal(storage).value.0, ReadLocal(storage).value.1);
    assert FirstFailure(responses, |plan|) == |plan| - 1;
  }

  /** Two stored lines with gift wrap, every request succeeding: two adds in
      stored order, the gift-wrap request, the fetch, and storage cleared. */
  lemma MergeTwoLinesExample(a: LineItem, b: LineItem, cart: ServerCart, parseError: string)
    requires a.product == IdOnly("A") && a.quantity == 2
    requires b.product == IdOnly("B") && b.quantity == 1
    ensures var storage := Storage(Some(Valid([a, b])), Some(Valid(true)));
            var oks := [Ok(cart), Ok(cart), Ok(cart), Ok(cart)];
            MergeSpec(storage, oks, parseError)
              == ([PostItem(IdOnly("A"), 2, a.attrs), PostItem(IdOnly("B"), 1, b.attrs), PatchGiftWrap(true), GetCart],
                  EmptyStorage, Fulfilled(cart))
  {
    var oks := [Ok(cart), Ok(cart), Ok(cart), Ok(cart)];
    assert Posts([a, b]) == [PostItem(IdOnly("A"), 2, a.attrs), PostItem(IdOnly("B"), 1, b.attrs)];
    assert forall j :: 0 <= j < 4 ==> Answer(oks, j).Ok?;
    assert FirstFailure(oks, 4) == 4;
    assert Plan([a, b], true) == Posts([a, b]) + [PatchGiftWrap(true), GetCart];
    var storage := Storage(Some(Valid([a, b])), Some(Valid(true)));
    assert ReadLocal(storage) == Some(([a, b], true));
    var m := MergeSpec(storage, oks, parseError);
    assert m.0 == Plan([a, b], true);
    assert m.1 == EmptyStorage;
    assert m.2 == Fulfilled(Answer(oks, 3).cart);
    assert m.0 == [PostItem(IdOnly("A"), 2, a.attrs), PostItem(IdOnly("B"), 1, b.attrs), PatchGiftWrap(true), GetCart];
    assert m == ([PostItem(IdOnly("A"), 2, a.attrs), PostItem(IdOnly("B"), 1, b.attrs), PatchGiftWrap(true), GetCart],
                  EmptyStorage, Fulfilled(cart));
  }

  /** The same cart when the second add fails: the gift-wrap request and the
      fetch are never issued and both lines stay in storage. */
  lemma MergeSecondAddFailsExample(a: LineItem, b: LineItem, cart: ServerCart, parseError: string)
    requires a.product == IdOnly("A") && a.quantity == 2
    requires b.product == IdOnly("B") && b.quantity == 1
    ensures var storage := Storage(Some(Valid([a, b])), Some(Valid(true)));
            var script := [Ok(cart), Fail(Str("out of stock"), "Request failed")];
            MergeSpec(storage, script, parseError)
              == ([PostItem(IdOnly("A"), 2, a.attrs), PostItem(IdOnly("B"), 1, b.attrs)],
                  storage, Rejected(Str("out of stock")))
  {
    var script := [Ok(cart), Fail(Str("out of stock"), "Request failed")];
    var plan := Plan([a, b], true);
    assert Posts([a, b]) == [PostItem(IdOnly("A"), 2, a.attrs), PostItem(IdOnly("B"), 1, b.attrs)];
    assert |plan| == 4;
    assert Answer(script, 0).Ok? && Answer(script, 1).Fail?;
    assert FirstFailure(script, 4) == 1;
    assert plan[..2] == Posts([a, b]);
  }
}
