/**
 * The layout and tap rules of one sale card in the sales grid: which card starts
 * a row, its left margin, its sizes and image, and the URL a tap opens.
 */
module SaleListItem {
  import opened JsValues

  /** JavaScript's `a % b` on integers: truncating, so the result has the sign of `a`; `NaN` (`None`) when `b == 0`. */
  function JsRemainder(a: int, b: int): (r: Option<int>)
    ensures r.None? <==> b == 0
    ensures r.Some? ==> (a >= 0 ==> 0 <= r.value < Abs(b)) && (a < 0 ==> -Abs(b) < r.value <= 0)
    ensures r.Some? ==> (a - r.value) % b == 0
  {
    if b == 0 then None
    else
      var m := Abs(a) % Abs(b);
      ModOfAbs(Abs(a), b);
      var r := if a >= 0 then m else -m;
      RemainderDivides(a, b, r);
      Some(r)
  }

  function Abs(x: int): int
  {
    if x < 0 then -x else x
  }

  /** Dafny's `%` does not depend on the divisor's sign. */
  lemma ModOfAbs(a: int, b: int)
    requires a >= 0 && b != 0
    ensures a % Abs(b) == a % b
  {
    if b < 0 {
      var q1, r1 := a / Abs(b), a % Abs(b);
      var q2, r2 := a / b, a % b;
      assert a == Abs(b) * q1 + r1 && a == b * q2 + r2;
      assert r1 - r2 == b * (q1 + q2);
      if q1 + q2 != 0 {
        MultipleAtLeastDivisor(b, q1 + q2);
      }
    }
  }

  /** `a - r` is a multiple of `b` when `r` is `±(|a| % |b|)` with the sign of `a`. */
  lemma RemainderDivides(a: int, b: int, r: int)
    requires b != 0
    requires r == if a >= 0 then Abs(a) % b else -(Abs(a) % b)
    ensures (a - r) % b == 0
  {
    var q := Abs(a) / b;
    assert Abs(a) == b * q + Abs(a) % b;
    if a >= 0 {
      assert a - r == b * q;
    } else {
      assert a - r == b * (-q);
    }
    MultipleModZero(b, if a >= 0 then q else -q);
  }

  lemma MultipleModZero(b: int, q: int)
    requires b != 0
    ensures (b * q) % b == 0
  {
    var d, m := (b * q) / b, (b * q) % b;
    assert b * q == b * d + m;
    assert m == b * (q - d);
    if q - d != 0 {
      MultipleAtLeastDivisor(b, q - d);
    }
  }

  /** `index === 0 || index % columnCount === 0` */
  function IsFirstItemInRow(index: int, columnCount: int): (first: bool)
    ensures index == 0 ==> first
    ensures columnCount == 0 ==> (first <==> index == 0)
    ensures columnCount != 0 && first ==> index % columnCount == 0
  {
    index == 0 || JsRemainder(index, columnCount) == Some(0)
  }

  /** With some columns, a card starts a row exactly when its index is a multiple of the column count. */
  lemma FirstInRowWithColumns(index: int, columnCount: int)
    requires columnCount != 0
    ensures IsFirstItemInRow(index, columnCount) <==> index % columnCount == 0
  {
    var r := JsRemainder(index, columnCount).value;
    if index % columnCount == 0 {
      assert (index - r) % columnCount == 0;
      ModOfDifference(index, r, columnCount);
    }
  }

  /** If `a` and `a - r` are multiples of `b` and `|r| < |b|`, then `r == 0`. */
  lemma ModOfDifference(a: int, r: int, b: int)
    requires b != 0 && -Abs(b) < r < Abs(b)
    requires a % b == 0 && (a - r) % b == 0
    ensures r == 0
  {
    var q1, q2 := a / b, (a - r) / b;
    assert a == b * q1;
    assert a - r == b * q2;
    assert r == b * (q1 - q2);
    if q1 - q2 != 0 {
      MultipleAtLeastDivisor(b, q1 - q2);
    }
  }

  lemma MultipleAtLeastDivisor(b: int, q: int)
    requires b != 0 && q != 0
    ensures Abs(b * q) >= Abs(b)
  {
    if q > 0 {
      if b > 0 { assert b * q >= b; } else { assert b * q <= b; }
    } else {
      if b > 0 { assert b * q <= -b; } else { assert b * q >= -b; }
    }
  }

  /** With no columns JavaScript computes `NaN`, so only the first card starts a row. */
  lemma FirstInRowWithoutColumns(index: int)
    ensures IsFirstItemInRow(index, 0) <==> index == 0
  {
  }

  /** `isFirstItemInRow ? 0 : 20` */
  function MarginLeft(index: int, columnCount: int): (m: nat)
    ensures m == 0 || m == 20
    ensures m == 0 <==> IsFirstItemInRow(index, columnCount)
  {
    if IsFirstItemInRow(index, columnCount) then 0 else 20
  }

  datatype CoverImage = CoverImage(url: Option<string>)

  /** The fields of the sale fragment the card reads. */
  datatype Sale = Sale(
    name: Option<string>,
    href: Option<string>,
    liveURLIfOpen: Option<string>,
    formattedStartDateTime: Option<string>,
    coverImage: Option<CoverImage>)

  /** The URL `handleTap` navigates to: `liveURLIfOpen || href`. */
  function TapURL(sale: Sale): (url: Option<string>)
    ensures Truthy(sale.liveURLIfOpen) ==> url == sale.liveURLIfOpen
    ensures !Truthy(sale.liveURLIfOpen) ==> url == sale.href
    ensures Truthy(url) <==> Truthy(sale.liveURLIfOpen) || Truthy(sale.href)
  {
    Or(sale.liveURLIfOpen, sale.href)
  }

  /** The layout values of one card: its view, its image and its two lines of text. */
  datatype CardLayout = CardLayout(
    width: real,
    marginBottom: nat,
    marginLeft: nat,
    imageWidth: real,
    imageHeight: real,
    imageBorderRadius: nat,
    imageMarginBottom: nat,
    imageURL: Option<string>,
    title: Option<string>,
    subtitle: Option<string>)

  function Layout(sale: Sale, containerWidth: real, index: int, columnCount: int): (c: CardLayout)
    ensures c.width == containerWidth && c.marginBottom == 20
    ensures c.marginLeft == MarginLeft(index, columnCount)
    ensures c.imageWidth == c.imageHeight == containerWidth
    ensures sale.coverImage.None? ==> c.imageURL.None?
    ensures sale.coverImage.Some? ==> c.imageURL == sale.coverImage.value.url
    ensures c.title == sale.name && c.subtitle == sale.formattedStartDateTime
  {
    CardLayout(
      containerWidth, 20, MarginLeft(index, columnCount),
      containerWidth, containerWidth, 2, 5,
      if sale.coverImage.Some? then sale.coverImage.value.url else None,
      sale.name, sale.formattedStartDateTime)
  }
}
