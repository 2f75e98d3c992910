/**
 * The employee card: a 1054 by 640 canvas drawn step by step. The canvas is
 * modelled as the list of drawing operations applied to it, in order; the
 * pixels those operations produce, fonts and image resampling are the image
 * library's business and are not modelled.
 */
module Card {
  import opened Wrappers
  import opened Decimal
  import opened Records
  import opened QrPayload
  import opened Crop

  const CardWidth: nat := 1054
  const CardHeight: nat := 640
  const HeaderHeight: nat := 85
  const LogoSize: nat := 80
  const PhotoWidth: nat := 300
  const PhotoHeight: nat := 400
  const PhotoX: nat := CardWidth - 350
  const PhotoY: nat := 150
  const RowStartY: nat := 150
  const RowHeight: nat := 60
  const LabelX: nat := 50
  const ValueX: nat := 200
  const QrSize: nat := 200
  const QrX: nat := (CardWidth - QrSize) / 2
  const QrY: nat := CardHeight - 250
  const FooterY: nat := CardHeight - 50
  const FooterWidth: nat := 5

  /** Fill colours; `Primary` is the card's dark blue, RGB (31, 97, 141). */
  datatype Color = White | Black | Primary | LightGray | Gray

  /** The three font roles: title (40 pt), labels (30 pt), values (35 pt). */
  datatype Font = TitleFont | LabelFont | DataFont

  /** What gets pasted: the logo (with its own alpha as mask or not), a cropped photo, a QR code of a payload. */
  datatype Picture = LogoPicture(masked: bool) | PhotoPicture(crop: CropBox) | QrPicture(payload: string)

  /**
   * One drawing step. Rectangle corners are inclusive, as the image
   * library draws them; a pasted picture covers `width` by `height` pixels
   * from its top-left corner; text is anchored at its top-left corner.
   */
  datatype DrawOp =
    | Rectangle(x0: int, y0: int, x1: int, y1: int, fill: Color, outline: Option<Color>)
    | Text(x: int, y: int, text: string, color: Color, font: Font)
    | Paste(picture: Picture, px: int, py: int, width: nat, height: nat)
    | Line(lx0: int, ly0: int, lx1: int, ly1: int, lineColor: Color, lineWidth: nat)

  /** The outcome of locating and opening the logo: a decoded image (RGBA or not), or none. */
  datatype LogoInput = LogoUnavailable | LogoDecoded(rgba: bool)

  type Dimension = n: nat | n >= 1 witness 1

  /**
   * The employee photo as the card sees it: none given (the placeholder
   * path), an image decoded with its size, or one given that is neither an
   * existing path nor a readable stream, or does not decode (the exception
   * path, which draws the same placeholder).
   */
  datatype PhotoInput = NoPhoto | PhotoDecoded(width: Dimension, height: Dimension) | PhotoUnreadable

  /** A canvas: its fixed size and background, and everything drawn on it so far. */
  class Canvas {
    const width: nat
    const height: nat
    const background: Color
    var ops: seq<DrawOp>

    constructor (width: nat, height: nat, background: Color)
      ensures this.width == width && this.height == height && this.background == background
      ensures ops == []
    {
      this.width, this.height, this.background := width, height, background;
      ops := [];
    }

    method DrawRectangle(x0: int, y0: int, x1: int, y1: int, fill: Color, outline: Option<Color>)
      modifies this
      ensures ops == old(ops) + [Rectangle(x0, y0, x1, y1, fill, outline)]
    {
      ops := ops + [Rectangle(x0, y0, x1, y1, fill, outline)];
    }

    method DrawText(x: int, y: int, text: string, color: Color, font: Font)
      modifies this
      ensures ops == old(ops) + [Text(x, y, text, color, font)]
    {
      ops := ops + [Text(x, y, text, color, font)];
    }

    method PastePicture(picture: Picture, x: int, y: int, width: nat, height: nat)
      modifies this
      ensures ops == old(ops) + [Paste(picture, x, y, width, height)]
    {
      ops := ops + [Paste(picture, x, y, width, height)];
    }

    method DrawLine(x0: int, y0: int, x1: int, y1: int, color: Color, lineWidth: nat)
      modifies this
      ensures ops == old(ops) + [Line(x0, y0, x1, y1, color, lineWidth)]
    {
      ops := ops + [Line(x0, y0, x1, y1, color, lineWidth)];
    }
  }

  // ---------------------------------------------------------------------
  // The card as a specification: the operations drawn, part by part.

  function HeaderOps(): seq<DrawOp>
  {
    [Rectangle(0, 0, CardWidth, HeaderHeight, Primary, None),
     Text(240, 24, "ALPHA TECH EMPLOYEE CARD", White, TitleFont)]
  }

  function LogoOps(logo: LogoInput): seq<DrawOp>
  {
    match logo
    case LogoUnavailable => []
    case LogoDecoded(rgba) => [Paste(LogoPicture(rgba), 50, 2, LogoSize, LogoSize)]
  }

  /** The grey box and its `PHOTO` label drawn where no photo could be pasted. */
  function PlaceholderOps(): seq<DrawOp>
  {
    [Rectangle(PhotoX, PhotoY, CardWidth - 50, 450, LightGray, Some(Black)),
     Text(CardWidth - 250, 300, "PHOTO", Gray, LabelFont)]
  }

  function PhotoOps(photo: PhotoInput): seq<DrawOp>
  {
    match photo
    case PhotoDecoded(w, h) =>
      [Paste(PhotoPicture(CropToAspect(w, h, PhotoWidth, PhotoHeight)), PhotoX, PhotoY, PhotoWidth, PhotoHeight)]
    case _ => PlaceholderOps()
  }

  /** The labelled rows of the card, in the order they are drawn. */
  function Details(e: Employee): seq<(string, string)>
  {
    [("Name", e.name), ("CNIC", e.cnic), ("Age", Digits(e.age)), ("Role", e.role),
     ("Unique ID", e.uniqueId), ("City", e.city), ("Shift", e.shift)]
  }

  function RowY(i: nat): nat
  {
    RowStartY + i * RowHeight
  }

  function RowOps(i: nat, caption: string, value: string): seq<DrawOp>
  {
    [Text(LabelX, RowY(i), caption + ":", Primary, LabelFont),
     Text(ValueX, RowY(i), value, Black, DataFont)]
  }

  /**
   * The text drawn for `rows`: row `i` puts its label at (50, 150 + 60 i)
   * and its value at (200, 150 + 60 i).
   */
  function DetailOps(rows: seq<(string, string)>): (ops: seq<DrawOp>)
    ensures |ops| == 2 * |rows|
    ensures forall i :: 0 <= i < |rows| ==>
      ops[2 * i] == Text(LabelX, RowY(i), rows[i].0 + ":", Primary, LabelFont) &&
      ops[2 * i + 1] == Text(ValueX, RowY(i), rows[i].1, Black, DataFont)
  {
    if |rows| == 0 then []
    else
      var n := |rows| - 1;
      var front := DetailOps(rows[..n]);
      assert forall i :: 0 <= i < n ==> rows[..n][i] == rows[i];
      front + RowOps(n, rows[n].0, rows[n].1)
  }

  function QrOps(e: Employee): seq<DrawOp>
  {
    [Paste(QrPicture(EmployeePayload(e)), QrX, QrY, QrSize, QrSize)]
  }

  function FooterOps(): seq<DrawOp>
  {
    [Line(0, FooterY, CardWidth, FooterY, Primary, FooterWidth)]
  }

  /** Everything drawn on the card of `e`, in drawing order (see CardOpsShape). */
  function CardOps(e: Employee, logo: LogoInput, photo: PhotoInput): seq<DrawOp>
  {
    HeaderOps() + LogoOps(logo) + PhotoOps(photo) + DetailOps(Details(e)) + QrOps(e) + FooterOps()
  }

  /**
   * `create_employee_card`: draws the header, the logo if it could be
   * loaded, the photo or the placeholder (both when no photo is given and
   * when loading it fails), the seven detail rows, the QR code of the
   * record and the footer line.
   */
  method CreateEmployeeCard(e: Employee, logo: LogoInput, photo: PhotoInput) returns (card: Canvas)
    ensures fresh(card)
    ensures card.width == CardWidth && card.height == CardHeight && card.background == White
    ensures card.ops == CardOps(e, logo, photo)
  {
    card := new Canvas(CardWidth, CardHeight, White);
    card.DrawRectangle(0, 0, CardWidth, HeaderHeight, Primary, None);
    card.DrawText(240, 24, "ALPHA TECH EMPLOYEE CARD", White, TitleFont);
    assert card.ops == HeaderOps();
    DrawLogo(card, logo);
    DrawPhoto(card, photo);
    DrawDetails(card, Details(e));
    ghost var drawn := HeaderOps() + LogoOps(logo) + PhotoOps(photo) + DetailOps(Details(e));
    assert card.ops == drawn;
    card.PastePicture(QrPicture(EmployeePayload(e)), (CardWidth - QrSize) / 2, CardHeight - 250, QrSize, QrSize);
    assert card.ops == drawn + QrOps(e);
    card.DrawLine(0, CardHeight - 50, CardWidth, CardHeight - 50, Primary, FooterWidth);
  }

  /** Pastes the logo, resized to 80 by 80, inside the header; a logo that could not be loaded is skipped. */
  method DrawLogo(card: Canvas, logo: LogoInput)
    modifies card
    ensures card.ops == old(card.ops) + LogoOps(logo)
  {
    match logo {
      case LogoDecoded(rgba) =>
        card.PastePicture(LogoPicture(rgba), 50, 2, LogoSize, LogoSize);
      case LogoUnavailable =>
    }
  }

  /**
   * Pastes the photo, cropped to the card's aspect ratio and resized to
   * 300 by 400; the placeholder is drawn when there is no photo and, again,
   * when the photo fails to load.
   */
  method DrawPhoto(card: Canvas, photo: PhotoInput)
    modifies card
    ensures card.ops == old(card.ops) + PhotoOps(photo)
  {
    match photo {
      case PhotoDecoded(w, h) =>
        var box := CropToAspect(w, h, PhotoWidth, PhotoHeight);
        card.PastePicture(PhotoPicture(box), CardWidth - 350, 150, PhotoWidth, PhotoHeight);
      case NoPhoto =>
        card.DrawRectangle(CardWidth - 350, 150, CardWidth - 50, 450, LightGray, Some(Black));
        card.DrawText(CardWidth - 250, 300, "PHOTO", Gray, LabelFont);
      case PhotoUnreadable =>
        card.DrawRectangle(CardWidth - 350, 150, CardWidth - 50, 450, LightGray, Some(Black));
        card.DrawText(CardWidth - 250, 300, "PHOTO", Gray, LabelFont);
    }
  }

  /** Draws each row's label and value, one row every 60 pixels from y = 150. */
  method DrawDetails(card: Canvas, details: seq<(string, string)>)
    modifies card
    ensures card.ops == old(card.ops) + DetailOps(details)
  {
    for i := 0 to |details|
      invariant card.ops == old(card.ops) + DetailOps(details[..i])
    {
      var (caption, value) := details[i];
      card.DrawText(LabelX, RowStartY + i * RowHeight, caption + ":", Primary, LabelFont);
      card.DrawText(ValueX, RowStartY + i * RowHeight, value, Black, DataFont);
      assert details[..i + 1][..i] == details[..i];
    }
    assert details[..|details|] == details;
  }

  // ---------------------------------------------------------------------
  // Layout: where things land on the canvas.

  /** A pixel region: `w` columns from `x` and `h` rows from `y`. */
  datatype Box = Box(x: int, y: int, w: nat, h: nat)

  const CanvasBox: Box := Box(0, 0, CardWidth, CardHeight)
  const HeaderBox: Box := Box(0, 0, CardWidth, HeaderHeight + 1)
  const PhotoBox: Box := Box(PhotoX, PhotoY, PhotoWidth, PhotoHeight)
  const QrBox: Box := Box(QrX, QrY, QrSize, QrSize)

  predicate Inside(b: Box, outer: Box) {
    outer.x <= b.x && b.x + b.w <= outer.x + outer.w &&
    outer.y <= b.y && b.y + b.h <= outer.y + outer.h
  }

  predicate Disjoint(a: Box, b: Box) {
    a.x + a.w <= b.x || b.x + b.w <= a.x || a.y + a.h <= b.y || b.y + b.h <= a.y
  }

  /** The pixels a paste covers. */
  function PastedBox(op: DrawOp): Box
    requires op.Paste?
  {
    Box(op.px, op.py, op.width, op.height)
  }

  /** The pixels a rectangle covers: both corners are included. */
  function RectangleBox(op: DrawOp): Box
    requires op.Rectangle? && op.x0 <= op.x1 && op.y0 <= op.y1
  {
    Box(op.x0, op.y0, op.x1 - op.x0 + 1, op.y1 - op.y0 + 1)
  }

  predicate AnyOp(ops: seq<DrawOp>, p: DrawOp -> bool) {
    exists k :: 0 <= k < |ops| && p(ops[k])
  }

  predicate AllOps(ops: seq<DrawOp>, p: DrawOp -> bool) {
    forall k :: 0 <= k < |ops| ==> p(ops[k])
  }

  lemma AnyOpConcat(a: seq<DrawOp>, b: seq<DrawOp>, p: DrawOp -> bool)
    ensures AnyOp(a + b, p) <==> AnyOp(a, p) || AnyOp(b, p)
  {
    if AnyOp(a + b, p) {
      var k :| 0 <= k < |a + b| && p((a + b)[k]);
      if k >= |a| {
        assert b[k - |a|] == (a + b)[k];
      }
    }
    if AnyOp(a, p) {
      var k :| 0 <= k < |a| && p(a[k]);
      assert (a + b)[k] == a[k];
    }
    if AnyOp(b, p) {
      var k :| 0 <= k < |b| && p(b[k]);
      assert (a + b)[|a| + k] == b[k];
    }
  }

  lemma AllOpsConcat(a: seq<DrawOp>, b: seq<DrawOp>, p: DrawOp -> bool)
    ensures AllOps(a + b, p) <==> AllOps(a, p) && AllOps(b, p)
  {
    if AllOps(a + b, p) {
      forall k | 0 <= k < |a| ensures p(a[k]) {
        assert a[k] == (a + b)[k];
      }
      forall k | 0 <= k < |b| ensures p(b[k]) {
        assert b[k] == (a + b)[|a| + k];
      }
    }
    if AllOps(a, p) && AllOps(b, p) {
      forall k | 0 <= k < |a + b| ensures p((a + b)[k]) {
        if k < |a| {
          assert (a + b)[k] == a[k];
        } else {
          assert (a + b)[k] == b[k - |a|];
        }
      }
    }
  }

  /** Splits the card's operations at its parts, for the part-by-part lemmas below. */
  lemma CardParts(e: Employee, logo: LogoInput, photo: PhotoInput, p: DrawOp -> bool)
    ensures AnyOp(CardOps(e, logo, photo), p) <==>
      AnyOp(HeaderOps(), p) || AnyOp(LogoOps(logo), p) || AnyOp(PhotoOps(photo), p) ||
      AnyOp(DetailOps(Details(e)), p) || AnyOp(QrOps(e), p) || AnyOp(FooterOps(), p)
    ensures AllOps(CardOps(e, logo, photo), p) <==>
      AllOps(HeaderOps(), p) && AllOps(LogoOps(logo), p) && AllOps(PhotoOps(photo), p) &&
      AllOps(DetailOps(Details(e)), p) && AllOps(QrOps(e), p) && AllOps(FooterOps(), p)
  {
    var a := HeaderOps();
    var b := a + LogoOps(logo);
    var c := b + PhotoOps(photo);
    var d := c + DetailOps(Details(e));
    var f := d + QrOps(e);
    AnyOpConcat(a, LogoOps(logo), p);
    AnyOpConcat(b, PhotoOps(photo), p);
    AnyOpConcat(c, DetailOps(Details(e)), p);
    AnyOpConcat(d, QrOps(e), p);
    AnyOpConcat(f, FooterOps(), p);
    AllOpsConcat(a, LogoOps(logo), p);
    AllOpsConcat(b, PhotoOps(photo), p);
    AllOpsConcat(c, DetailOps(Details(e)), p);
    AllOpsConcat(d, QrOps(e), p);
    AllOpsConcat(f, FooterOps(), p);
  }

  predicate IsPhotoPaste(op: DrawOp) {
    op.Paste? && op.picture.PhotoPicture?
  }

  predicate IsPlaceholder(op: DrawOp) {
    op.Rectangle? && op.fill == LightGray
  }

  predicate IsQrPaste(op: DrawOp) {
    op.Paste? && op.picture.QrPicture?
  }

  /** A paste that lands wholly on the canvas. */
  predicate PasteOnCanvas(op: DrawOp) {
    op.Paste? ==> Inside(PastedBox(op), CanvasBox)
  }

  /**
   * A card shows the photo exactly when one was decoded, and the grey
   * placeholder exactly when none was given or it failed to load.
   */
  lemma PhotoOrPlaceholder(e: Employee, logo: LogoInput, photo: PhotoInput)
    ensures AnyOp(CardOps(e, logo, photo), IsPhotoPaste) <==> photo.PhotoDecoded?
    ensures AnyOp(CardOps(e, logo, photo), IsPlaceholder) <==> !photo.PhotoDecoded?
  {
    CardParts(e, logo, photo, IsPhotoPaste);
    CardParts(e, logo, photo, IsPlaceholder);
    DetailsAreText(Details(e));
    var ops := PhotoOps(photo);
    if photo.PhotoDecoded? {
      assert IsPhotoPaste(ops[0]);
    } else {
      assert IsPlaceholder(ops[0]);
    }
  }

  lemma DetailsAreText(rows: seq<(string, string)>)
    ensures AllOps(DetailOps(rows), (op: DrawOp) => op.Text?)
    ensures !AnyOp(DetailOps(rows), IsPhotoPaste) && !AnyOp(DetailOps(rows), IsPlaceholder)
    ensures !AnyOp(DetailOps(rows), IsQrPaste)
  {
    var ops := DetailOps(rows);
    forall k | 0 <= k < |ops| ensures ops[k].Text? {
      DetailOpAt(rows, k);
    }
  }

  /** Operation `k` of the detail rows is the label (even `k`) or the value (odd `k`) of row `k / 2`. */
  lemma DetailOpAt(rows: seq<(string, string)>, k: nat)
    requires k < 2 * |rows|
    ensures DetailOps(rows)[k] ==
      if k % 2 == 0 then Text(LabelX, RowY(k / 2), rows[k / 2].0 + ":", Primary, LabelFont)
      else Text(ValueX, RowY(k / 2), rows[k / 2].1, Black, DataFont)
  {
    var i := k / 2;
    assert k == 2 * i || k == 2 * i + 1;
    assert 0 <= i < |rows|;
  }

  /**
   * The card's drawing opens with the header band and closes with the QR
   * code and then the footer line; it has 18 operations always, one more
   * for a logo, and one (photo) or two (placeholder box and label) for the
   * photo area.
   */
  lemma CardOpsShape(e: Employee, logo: LogoInput, photo: PhotoInput)
    ensures var ops := CardOps(e, logo, photo);
      |ops| == 18 + (if logo.LogoDecoded? then 1 else 0) + (if photo.PhotoDecoded? then 1 else 2) &&
      ops[0] == Rectangle(0, 0, CardWidth, HeaderHeight, Primary, None) &&
      ops[|ops| - 2] == Paste(QrPicture(EmployeePayload(e)), QrX, QrY, QrSize, QrSize) &&
      ops[|ops| - 1] == Line(0, FooterY, CardWidth, FooterY, Primary, FooterWidth)
  {
  }

  /** Every picture pasted on a card, whichever inputs it was drawn from, lies inside the canvas. */
  lemma PastesInsideCanvas(e: Employee, logo: LogoInput, photo: PhotoInput)
    ensures AllOps(CardOps(e, logo, photo), PasteOnCanvas)
  {
    CardParts(e, logo, photo, PasteOnCanvas);
    DetailsAreText(Details(e));
    var details := DetailOps(Details(e));
    forall k | 0 <= k < |details| ensures PasteOnCanvas(details[k]) {
      assert details[k].Text?;
    }
  }

  /** The QR code is pasted in the card's QR box; a card has no other QR code. */
  predicate IsCardQr(e: Employee, op: DrawOp) {
    IsQrPaste(op) ==> op == Paste(QrPicture(EmployeePayload(e)), QrBox.x, QrBox.y, QrBox.w, QrBox.h)
  }

  /**
   * A card carries a QR code, and every QR code on it is the record's
   * payload in the QR box; with single-line fields that payload decodes
   * back to the record's entries.
   */
  lemma CardQrPayload(e: Employee, logo: LogoInput, photo: PhotoInput)
    ensures AnyOp(CardOps(e, logo, photo), IsQrPaste)
    ensures forall k :: 0 <= k < |CardOps(e, logo, photo)| ==> IsCardQr(e, CardOps(e, logo, photo)[k])
    ensures SingleLineFields(e) ==> DecodePayload(EmployeePayload(e)) == Some(Items(e))
  {
    var ops := CardOps(e, logo, photo);
    var p := (op: DrawOp) => IsCardQr(e, op);
    CardParts(e, logo, photo, IsQrPaste);
    CardParts(e, logo, photo, p);
    DetailsAreText(Details(e));
    var details := DetailOps(Details(e));
    forall k | 0 <= k < |details| ensures p(details[k]) {
      assert details[k].Text?;
    }
    assert IsQrPaste(QrOps(e)[0]);
    assert AllOps(ops, p);
    if SingleLineFields(e) {
      EmployeePayloadLines(e);
    }
  }

  /**
   * The fixed boxes: the QR code is centred horizontally, ends where the
   * footer line is drawn, and is clear of the photo and of the placeholder;
   * photo and placeholder fit the canvas; the logo sits inside the header.
   */
  lemma CardGeometry()
    ensures Inside(QrBox, CanvasBox) && QrBox.x == CardWidth - (QrBox.x + QrBox.w)
    ensures QrBox == Box(427, 390, 200, 200) && QrBox.y + QrBox.h == FooterY
    ensures Inside(PhotoBox, CanvasBox) && Disjoint(QrBox, PhotoBox)
    ensures Inside(RectangleBox(PlaceholderOps()[0]), CanvasBox)
    ensures Disjoint(QrBox, RectangleBox(PlaceholderOps()[0]))
    ensures RectangleBox(PlaceholderOps()[0]) == Box(704, 150, 301, 301)
    ensures LogoOps(LogoDecoded(true))[0].Paste? && Inside(PastedBox(LogoOps(LogoDecoded(true))[0]), HeaderBox)
  {
  }

  /**
   * The detail rows are text only, anchored left of the QR code and of the
   * photo, below the header and with a full row height above the footer;
   * the first four rows (Name to Role) end above the QR code, the last three
   * share its band of rows.
   */
  lemma DetailRowsLayout(e: Employee)
    ensures |DetailOps(Details(e))| == 14
    ensures AllOps(DetailOps(Details(e)), (op: DrawOp) =>
      op.Text? && (op.x == LabelX || op.x == ValueX) && op.x < QrX && op.x < PhotoX &&
      HeaderHeight < op.y && op.y + RowHeight <= FooterY)
    ensures forall k :: 0 <= k < 8 ==> DetailOps(Details(e))[k].y + RowHeight <= QrY
    ensures forall k :: 8 <= k < 14 ==> QrY <= DetailOps(Details(e))[k].y < QrY + QrSize
  {
    var ops := DetailOps(Details(e));
    forall k | 0 <= k < |ops|
      ensures ops[k].Text? && (ops[k].x == LabelX || ops[k].x == ValueX)
      ensures HeaderHeight < ops[k].y && ops[k].y + RowHeight <= FooterY
      ensures k < 8 ==> ops[k].y + RowHeight <= QrY
      ensures k >= 8 ==> QrY <= ops[k].y < QrY + QrSize
    {
      DetailOpAt(Details(e), k);
      RowYBounds(k / 2);
    }
  }

  /** Where row `i` of the seven sits relative to the header, the QR code and the footer. */
  lemma RowYBounds(i: nat)
    requires i < 7
    ensures HeaderHeight < RowY(i) && RowY(i) + RowHeight <= FooterY
    ensures i < 4 ==> RowY(i) + RowHeight <= QrY
    ensures i >= 4 ==> QrY <= RowY(i) < QrY + QrSize
  {
  }
}
