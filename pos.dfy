/** The point-of-sale page's cart: a list of lines keyed by material id,
    changed in place by the add, remove and checkout handlers, and the
    running total shown under it. */
module PointOfSale {
  import opened Wrappers

  /** The value of the material selector: a non-empty string names a material. */
  type MaterialId = string

  datatype Line = Line(materialId: MaterialId, name: string, qty: real, price: real)

  /** The amount one line contributes to the total. */
  function Subtotal(l: Line): real {
    l.qty * l.price
  }

  /** The sum of the line amounts, accumulated front to back. */
  function Total(lines: seq<Line>): real {
    if lines == [] then 0.0 else Total(lines[..|lines| - 1]) + Subtotal(lines[|lines| - 1])
  }

  /** No two lines of the cart share a material id. */
  predicate DistinctIds(lines: seq<Line>) {
    forall i, j :: 0 <= i < j < |lines| ==> lines[i].materialId != lines[j].materialId
  }

  /** The first line holding material `id`, if any. */
  function IndexOf(lines: seq<Line>, id: MaterialId): (r: Option<nat>)
    ensures r.None? <==> forall j :: 0 <= j < |lines| ==> lines[j].materialId != id
    ensures r.Some? ==> r.value < |lines| && lines[r.value].materialId == id
    ensures r.Some? ==> forall j :: 0 <= j < r.value ==> lines[j].materialId != id
  {
    if lines == [] then None
    else if lines[0].materialId == id then Some(0)
    else match IndexOf(lines[1..], id)
      case None => None
      case Some(k) => Some(k + 1)
  }

  /** The cart after adding `qty` of material `id` at unit price `price`:
      an existing line takes the extra quantity and the new price; otherwise
      a line is appended, named by the selector option's text or "Unknown". */
  function Added(lines: seq<Line>, id: MaterialId, qty: real, price: real, optionText: Option<string>): seq<Line> {
    match IndexOf(lines, id)
    case Some(k) => lines[k := lines[k].(qty := lines[k].qty + qty, price := price)]
    case None => lines + [Line(id, optionText.GetOr("Unknown"), qty, price)]
  }

  /** Where `splice(idx, 1)` starts removing in a list of length `len`:
      a negative index counts back from the end, clamped to the bounds. */
  function SpliceStart(idx: int, len: nat): (start: nat)
    ensures start <= len
    ensures 0 <= idx <= len ==> start == idx
    ensures idx < 0 && 0 <= len + idx ==> start == len + idx
    ensures len + idx < 0 ==> start == 0
    ensures idx > len ==> start == len
  {
    if idx < 0 then (if len + idx < 0 then 0 else len + idx)
    else if idx > len then len else idx
  }

  /** The cart after `splice(idx, 1)`. */
  function Removed(lines: seq<Line>, idx: int): seq<Line> {
    var k := SpliceStart(idx, |lines|);
    if k < |lines| then lines[..k] + lines[k + 1..] else lines
  }

  /** What the add button reads from its fields: `parseFloat(...) || d`
      keeps a parsed value unless it is missing (NaN) or zero. */
  function FieldOr(field: Option<real>, default: real): (v: real)
    ensures field.Some? && field.value != 0.0 ==> v == field.value
    ensures field.None? || field.value == 0.0 ==> v == default
    ensures default != 0.0 ==> v != 0.0
  {
    if field.Some? && field.value != 0.0 then field.value else default
  }

  /** The reason shown when the server refuses: its message, or
      "Unknown error" when the message is missing or empty. */
  function FailureReason(message: Option<string>): (reason: string)
    ensures reason != []
    ensures message.Some? && message.value != [] ==> reason == message.value
    ensures message.None? || message.value == [] ==> reason == "Unknown error"
  {
    if message.Some? && message.value != [] then message.value else "Unknown error"
  }

  lemma {:induction false} TotalAppend(lines: seq<Line>, l: Line)
    ensures Total(lines + [l]) == Total(lines) + Subtotal(l)
  {
    assert (lines + [l])[..|lines|] == lines;
  }

  /** The total of a concatenation is the sum of the totals. */
  lemma {:induction false} TotalConcat(a: seq<Line>, b: seq<Line>)
    ensures Total(a + b) == Total(a) + Total(b)
    decreases |b|
  {
    if b == [] {
      assert a + b == a;
    } else {
      var c := b[..|b| - 1];
      var l := b[|b| - 1];
      assert b == c + [l];
      assert a + b == (a + c) + [l];
      TotalAppend(a + c, l);
      TotalConcat(a, c);
      TotalAppend(c, l);
    }
  }

  /** Taking line `k` out lowers the total by exactly that line's amount. */
  lemma TotalRemoveAt(lines: seq<Line>, k: nat)
    requires k < |lines|
    ensures Total(lines[..k] + lines[k + 1..]) == Total(lines) - Subtotal(lines[k])
  {
    var a, x, b := lines[..k], lines[k], lines[k + 1..];
    assert lines == (a + [x]) + b;
    TotalConcat(a + [x], b);
    TotalAppend(a, x);
    TotalConcat(a, b);
  }

  /** Replacing line `k` changes the total by the difference of the two
      lines' amounts. */
  lemma TotalUpdateAt(lines: seq<Line>, k: nat, l: Line)
    requires k < |lines|
    ensures Total(lines[k := l]) == Total(lines) - Subtotal(lines[k]) + Subtotal(l)
  {
    var a, x, b := lines[..k], lines[k], lines[k + 1..];
    assert lines == (a + [x]) + b;
    assert lines[k := l] == (a + [l]) + b;
    TotalConcat(a + [x], b);
    TotalConcat(a + [l], b);
    TotalAppend(a, x);
    TotalAppend(a, l);
  }

  /** Adding a material already in the cart keeps the length, updates only
      that line (quantity summed, price overwritten) and moves the total by
      the difference of that line's amounts. */
  lemma AddedToExisting(lines: seq<Line>, k: nat, qty: real, price: real, optionText: Option<string>)
    requires DistinctIds(lines)
    requires k < |lines|
    ensures var r := Added(lines, lines[k].materialId, qty, price, optionText);
      && |r| == |lines|
      && r[k] == lines[k].(qty := lines[k].qty + qty, price := price)
      && (forall j :: 0 <= j < |lines| && j != k ==> r[j] == lines[j])
      && Total(r) == Total(lines) - Subtotal(lines[k]) + Subtotal(r[k])
  {
    var id := lines[k].materialId;
    assert IndexOf(lines, id) == Some(k);
    TotalUpdateAt(lines, k, lines[k].(qty := lines[k].qty + qty, price := price));
  }

  /** Adding a material not yet in the cart appends exactly one line,
      leaves the earlier lines alone and raises the total by qty * price. */
  lemma AddedNew(lines: seq<Line>, id: MaterialId, qty: real, price: real, optionText: Option<string>)
    requires forall j :: 0 <= j < |lines| ==> lines[j].materialId != id
    ensures Added(lines, id, qty, price, optionText) == lines + [Line(id, optionText.GetOr("Unknown"), qty, price)]
    ensures Total(Added(lines, id, qty, price, optionText)) == Total(lines) + Subtotal(Line(id, optionText.GetOr("Unknown"), qty, price))
  {
    TotalAppend(lines, Line(id, optionText.GetOr("Unknown"), qty, price));
  }

  /** Adding keeps material ids pairwise distinct. */
  lemma AddedKeepsDistinct(lines: seq<Line>, id: MaterialId, qty: real, price: real, optionText: Option<string>)
    requires DistinctIds(lines)
    ensures DistinctIds(Added(lines, id, qty, price, optionText))
  {
  }

  /** Removing a line in range keeps the order of the others, drops the
      length by one and lowers the total by that line's amount; an index
      past the end removes nothing. */
  lemma RemovedShape(lines: seq<Line>, idx: int)
    ensures 0 <= idx < |lines| ==>
      && Removed(lines, idx) == lines[..idx] + lines[idx + 1..]
      && |Removed(lines, idx)| == |lines| - 1
      && Total(Removed(lines, idx)) == Total(lines) - Subtotal(lines[idx])
    ensures idx >= |lines| ==> Removed(lines, idx) == lines
  {
    if 0 <= idx < |lines| {
      TotalRemoveAt(lines, idx);
    }
  }

  /** Removing keeps material ids pairwise distinct. */
  lemma RemovedKeepsDistinct(lines: seq<Line>, idx: int)
    requires DistinctIds(lines)
    ensures DistinctIds(Removed(lines, idx))
  {
    var k := SpliceStart(idx, |lines|);
    if k < |lines| {
      var r := lines[..k] + lines[k + 1..];
      forall i, j | 0 <= i < j < |r| ensures r[i].materialId != r[j].materialId {
        var i' := if i < k then i else i + 1;
        var j' := if j < k then j else j + 1;
        assert r[i] == lines[i'] && r[j] == lines[j'];
      }
    }
  }

  /** What the server answered to the checkout request. */
  datatype Reply = Accepted | Refused(message: Option<string>) | NetworkError

  /** What the checkout button ends with. */
  datatype CheckoutResult = EmptyCart | Completed(shownTotal: real) | Failed(reason: string) | ConnectionFailed

  /** The cart of one point-of-sale page. */
  class Cart {
    var lines: seq<Line>

    ghost predicate Valid()
      reads this
    {
      DistinctIds(lines)
    }

    constructor ()
      ensures Valid()
      ensures lines == []
    {
      lines := [];
    }

    /** The total the cart table shows, summed line by line. */
    method RenderTotal() returns (total: real)
      ensures total == Total(lines)
    {
      total := 0.0;
      var i := 0;
      while i < |lines|
        invariant 0 <= i <= |lines|
        invariant total == Total(lines[..i])
      {
        assert lines[..i + 1][..i] == lines[..i];
        total := total + lines[i].qty * lines[i].price;
        i := i + 1;
      }
      assert lines[..i] == lines;
    }

    /** Adds to an existing line or appends a new one, then re-renders. */
    method AddToCart(id: MaterialId, qty: real, price: real, optionText: Option<string>) returns (shownTotal: real)
      requires Valid()
      modifies this
      ensures Valid()
      ensures lines == Added(old(lines), id, qty, price, optionText)
      ensures shownTotal == Total(lines)
    {
      AddedKeepsDistinct(lines, id, qty, price, optionText);
      match IndexOf(lines, id) {
        case Some(k) =>
          lines := lines[k := lines[k].(qty := lines[k].qty + qty, price := price)];
        case None =>
          lines := lines + [Line(id, optionText.GetOr("Unknown"), qty, price)];
      }
      shownTotal := RenderTotal();
    }

    /** Removes the line at `idx` as `splice(idx, 1)` does, then re-renders. */
    method RemoveItem(idx: int) returns (shownTotal: real)
      requires Valid()
      modifies this
      ensures Valid()
      ensures lines == Removed(old(lines), idx)
      ensures shownTotal == Total(lines)
    {
      RemovedKeepsDistinct(lines, idx);
      var k := SpliceStart(idx, |lines|);
      if k < |lines| {
        lines := lines[..k] + lines[k + 1..];
      }
      shownTotal := RenderTotal();
    }

    /** The add button: with no material selected nothing is added; a
        missing or zero quantity counts as 1 and a missing or zero price
        as 0. */
    method AddClicked(selected: MaterialId, qtyField: Option<real>, priceField: Option<real>, optionText: Option<string>)
      returns (shownTotal: Option<real>)
      requires Valid()
      modifies this
      ensures Valid()
      ensures selected == [] ==> lines == old(lines) && shownTotal == None
      ensures selected != [] ==>
        lines == Added(old(lines), selected, FieldOr(qtyField, 1.0), FieldOr(priceField, 0.0), optionText)
        && shownTotal == Some(Total(lines))
    {
      if selected == [] {
        return None;
      }
      var total := AddToCart(selected, FieldOr(qtyField, 1.0), FieldOr(priceField, 0.0), optionText);
      shownTotal := Some(total);
    }

    /** The checkout button: an empty cart is refused and stays empty; an
        accepted checkout empties the cart and shows a zero total; a refusal
        or a network failure leaves the cart as it was. */
    method Checkout(reply: Reply) returns (result: CheckoutResult)
      requires Valid()
      modifies this
      ensures Valid()
      ensures old(lines) == [] ==> result == EmptyCart && lines == old(lines)
      ensures old(lines) != [] && reply == Accepted ==> result == Completed(0.0) && lines == []
      ensures old(lines) != [] && reply.Refused? ==>
        result == Failed(FailureReason(reply.message)) && lines == old(lines)
      ensures old(lines) != [] && reply == NetworkError ==> result == ConnectionFailed && lines == old(lines)
    {
      if |lines| == 0 {
        return EmptyCart;
      }
      match reply
      case Accepted =>
        lines := [];
        var total := RenderTotal();
        result := Completed(total);
      case Refused(message) =>
        result := Failed(FailureReason(message));
      case NetworkError =>
        result := ConnectionFailed;
    }
  }
}
