/** String rules the engine uses to name periods, paths, folders and
    attachment files. */
module Naming {
  import opened Values

  // ---------------------------------------------------------------------
  // Character replacement (Python's `str.replace` with one-character arguments)

  /** `s` with every `a` replaced by `b`. */
  function ReplaceChar(s: string, a: char, b: char): (r: string)
    ensures |r| == |s|
    ensures forall i {:trigger r[i]} :: 0 <= i < |s| ==> r[i] == (if s[i] == a then b else s[i])
  {
    if s == [] then [] else [if s[0] == a then b else s[0]] + ReplaceChar(s[1..], a, b)
  }

  /** `s.replace(' ', '_')`: the form group names take in paths and folder names. */
  function Underscored(s: string): (r: string)
    ensures |r| == |s|
    ensures ' ' !in r
    ensures forall i {:trigger r[i]} :: 0 <= i < |s| ==> r[i] == if s[i] == ' ' then '_' else s[i]
  {
    ReplaceChar(s, ' ', '_')
  }

  lemma UnderscoredIdentity(s: string)
    requires ' ' !in s
    ensures Underscored(s) == s
  {
  }

  const SlugLength: nat := 20

  /** `s.replace(' ', '_')[:20]`: the truncated slug in attachment names. */
  function Slug(s: string): (r: string)
    ensures |r| == if |s| < SlugLength then |s| else SlugLength
    ensures ' ' !in r
    ensures r == Underscored(s)[..|r|]
  {
    var u := Underscored(s);
    if |u| <= SlugLength then u else u[..SlugLength]
  }

  // ---------------------------------------------------------------------
  // Attachment classification

  function Lower(c: char): char
  {
    if 'A' <= c <= 'Z' then (c as int + 32) as char else c
  }

  function LowerAll(s: string): (r: string)
    ensures |r| == |s|
    ensures forall i {:trigger r[i]} :: 0 <= i < |s| ==> r[i] == Lower(s[i])
  {
    seq(|s|, i requires 0 <= i < |s| => Lower(s[i]))
  }

  /** `path.lower().endswith('.pdf')`: the attachment is already a PDF. */
  predicate IsPdfPath(path: string)
  {
    var l := LowerAll(path);
    |l| >= 4 && l[|l| - 4..] == ".pdf"
  }

  /** Only the last four characters decide, ignoring their case. */
  lemma {:induction false} PdfPathBySuffix(stem: string, ext: string)
    requires |ext| == 4
    ensures IsPdfPath(stem + ext) <==> LowerAll(ext) == ".pdf"
  {
    var p := stem + ext;
    assert LowerAll(p)[|p| - 4..] == LowerAll(ext);
  }

  /** The case of the extension does not matter; other extensions differ. */
  lemma LowerExtensions()
    ensures LowerAll(".pdf") == ".pdf" && LowerAll(".PDF") == ".pdf" && LowerAll(".Pdf") == ".pdf"
    ensures LowerAll(".png") != ".pdf" && LowerAll(".jpg") != ".pdf"
  {
    assert LowerAll(".pdf") == ".pdf";
    assert LowerAll(".PDF") == ".pdf";
    assert LowerAll(".Pdf") == ".pdf";
    assert LowerAll(".png")[2] == 'n';
    assert LowerAll(".jpg")[1] == 'j';
  }

  lemma PdfSuffixes(stem: string)
    ensures IsPdfPath(stem + ".pdf") && IsPdfPath(stem + ".PDF") && IsPdfPath(stem + ".Pdf")
    ensures !IsPdfPath(stem + ".png") && !IsPdfPath(stem + ".jpg")
  {
    LowerExtensions();
    PdfPathBySuffix(stem, ".pdf");
    PdfPathBySuffix(stem, ".PDF");
    PdfPathBySuffix(stem, ".Pdf");
    PdfPathBySuffix(stem, ".png");
    PdfPathBySuffix(stem, ".jpg");
  }

  // ---------------------------------------------------------------------
  // Decimal digits (`strftime` fields and Python's `str(int)`)

  predicate IsDigit(c: char)
  {
    '0' <= c <= '9'
  }

  predicate AllDigits(s: string)
  {
    forall i :: 0 <= i < |s| ==> IsDigit(s[i])
  }

  function Pow10(n: nat): (p: nat)
    ensures p >= 1
  {
    if n == 0 then 1 else 10 * Pow10(n - 1)
  }

  function DigitChar(d: nat): (c: char)
    requires d < 10
    ensures IsDigit(c) && c as int - '0' as int == d
  {
    (d + '0' as int) as char
  }

  /** `n` written with exactly `width` decimal digits, zero-padded on the left. */
  function Padded(n: nat, width: nat): (r: string)
    requires n < Pow10(width)
    ensures |r| == width
    ensures AllDigits(r)
  {
    if width == 0 then ""
    else
      assert n / 10 < Pow10(width - 1);
      Padded(n / 10, width - 1) + [DigitChar(n % 10)]
  }

  /** The number a string of decimal digits denotes. */
  function DigitsValue(s: string): (v: nat)
    requires AllDigits(s)
    ensures v < Pow10(|s|)
  {
    if s == [] then 0
    else
      assert IsDigit(s[|s| - 1]);
      10 * DigitsValue(s[..|s| - 1]) + (s[|s| - 1] as int - '0' as int)
  }

  lemma {:induction false} PaddedValue(n: nat, width: nat)
    requires n < Pow10(width)
    ensures DigitsValue(Padded(n, width)) == n
  {
    if width > 0 {
      assert n / 10 < Pow10(width - 1);
      var p := Padded(n, width);
      assert p[..|p| - 1] == Padded(n / 10, width - 1);
      PaddedValue(n / 10, width - 1);
    }
  }

  /** The number of digits `str(n)` has for a non-negative `n`. */
  function Width(n: nat): (w: nat)
    ensures w >= 1 && n < Pow10(w)
  {
    if n < 10 then 1 else 1 + Width(n / 10)
  }

  /** Python's `str(n)` for an integer. */
  function Decimal(n: int): (r: string)
    ensures |r| > 0
    ensures forall i :: 0 <= i < |r| ==> IsDigit(r[i]) || (i == 0 && r[i] == '-')
  {
    if n < 0 then "-" + Padded(-n, Width(-n)) else Padded(n, Width(n))
  }

  /** Reads back what `Decimal` wrote. */
  function ReadDecimal(s: string): Option<int>
  {
    if |s| > 0 && s[0] == '-' && AllDigits(s[1..]) then Some(-(DigitsValue(s[1..]) as int))
    else if AllDigits(s) then Some(DigitsValue(s))
    else None
  }

  lemma DecimalRoundTrip(n: int)
    ensures ReadDecimal(Decimal(n)) == Some(n)
  {
    if n < 0 {
      var p := Padded(-n, Width(-n));
      PaddedValue(-n, Width(-n));
      assert ("-" + p)[1..] == p;
      assert ReadDecimal("-" + p) == Some(-(DigitsValue(p) as int));
    } else {
      var p := Padded(n, Width(n));
      PaddedValue(n, Width(n));
      assert IsDigit(p[0]);
      assert ReadDecimal(p) == Some(DigitsValue(p));
    }
  }

  lemma DecimalInjective(a: int, b: int)
    requires Decimal(a) == Decimal(b)
    ensures a == b
  {
    DecimalRoundTrip(a);
    DecimalRoundTrip(b);
  }

  /** How an f-string renders a cell; an empty cell renders as `nan`. */
  function CellText(c: Cell): string
  {
    match c
    case Text(s) => s
    case Amount(n) => Decimal(n)
    case Null => "nan"
  }

  // ---------------------------------------------------------------------
  // Periods: `strftime('%Y_%m')`

  /** The period string `YYYY_MM` of a timestamp. */
  function PeriodKey(st: Stamp): (p: string)
    ensures |p| == 7 && p[4] == '_'
    ensures AllDigits(p[..4]) && AllDigits(p[5..])
  {
    Padded(st.year, 4) + "_" + Padded(st.month, 2)
  }

  /** The timestamp month a period string names, if it is one. */
  function ParsePeriod(p: string): Option<Stamp>
  {
    if |p| == 7 && p[4] == '_' && AllDigits(p[..4]) && AllDigits(p[5..]) then
      var y := DigitsValue(p[..4]);
      var m := DigitsValue(p[5..]);
      assert y < Pow10(4) == 10000;
      if 1 <= m <= 12 then Some(Stamp(y, m)) else None
    else None
  }

  lemma PeriodRoundTrip(st: Stamp)
    ensures ParsePeriod(PeriodKey(st)) == Some(st)
  {
    var p := PeriodKey(st);
    assert p[..4] == Padded(st.year, 4);
    assert p[5..] == Padded(st.month, 2);
    PaddedValue(st.year, 4);
    PaddedValue(st.month, 2);
  }

  /** Two timestamps share a period string exactly when they share year and month. */
  lemma PeriodKeyInjective(a: Stamp, b: Stamp)
    requires PeriodKey(a) == PeriodKey(b)
    ensures a == b
  {
    PeriodRoundTrip(a);
    PeriodRoundTrip(b);
  }

  /** A period string has no spaces, so `month_year.replace(' ', '_')` leaves it unchanged. */
  lemma PeriodKeyUnderscored(st: Stamp)
    ensures Underscored(PeriodKey(st)) == PeriodKey(st)
  {
    var p := PeriodKey(st);
    assert forall i :: 0 <= i < |p| ==> p[i] != ' ';
    UnderscoredIdentity(p);
  }

  /** `month_year.replace('_', ' ')`: the period as headers print it, `YYYY MM`. */
  function HumanPeriod(p: string): string
  {
    ReplaceChar(p, '_', ' ')
  }

  // ---------------------------------------------------------------------
  // Paths and file names

  function Join(dir: string, name: string): string
  {
    dir + "/" + name
  }

  /** `path.split('/')[-1]` (and `os.path.basename`): the text after the last `/`. */
  function LastSegment(path: string): (r: string)
    ensures '/' !in r
    ensures |r| <= |path| && r == path[|path| - |r|..]
    ensures |r| < |path| ==> path[|path| - |r| - 1] == '/'
  {
    if path == [] then []
    else if path[|path| - 1] == '/' then []
    else
      var r := LastSegment(path[..|path| - 1]);
      assert path[..|path| - 1][|path| - 1 - |r|..] + [path[|path| - 1]] == path[|path| - |r| - 1..];
      r + [path[|path| - 1]]
  }

  lemma LastSegmentOfJoin(dir: string, name: string)
    requires '/' !in name
    ensures LastSegment(Join(dir, name)) == name
  {
    var p := Join(dir, name);
    var r := LastSegment(p);
    assert p[|p| - |name|..] == name;
    assert p[|p| - |name| - 1] == '/';
  }

  /** `f"Beleg_{id}_{slug}.pdf"`: the name of a receipt PDF. */
  function ReceiptName(id: string, slug: string): (r: string)
    ensures IsPdfPath(r)
  {
    var r := "Beleg_" + id + "_" + slug + ".pdf";
    PdfSuffixes("Beleg_" + id + "_" + slug);
    r
  }

  /** `f"temp_{id}_{slug}.jpg"`: where a receipt image is staged before conversion. */
  function TempReceiptName(id: string, slug: string): string
  {
    "temp_" + id + "_" + slug + ".jpg"
  }

  /** Receipts of two different record identifiers never share a file name,
      since an identifier's text has no `_`. */
  lemma ReceiptNamesDistinct(id1: string, id2: string, slug1: string, slug2: string)
    requires '_' !in id1 && '_' !in id2 && id1 != id2
    ensures ReceiptName(id1, slug1) != ReceiptName(id2, slug2)
  {
    var n1, n2 := ReceiptName(id1, slug1), ReceiptName(id2, slug2);
    assert n1[6..6 + |id1|] == id1 && n1[6 + |id1|] == '_';
    assert n2[6..6 + |id2|] == id2 && n2[6 + |id2|] == '_';
    if |id1| < |id2| {
      assert n2[6 + |id1|] == id2[|id1|];
    } else if |id2| < |id1| {
      assert n1[6 + |id2|] == id1[|id2|];
    }
  }

  /** Two records with distinct integer identifiers get distinct receipt names. */
  lemma ReceiptNamesOfIdsDistinct(id1: int, id2: int, slug1: string, slug2: string)
    requires id1 != id2
    ensures ReceiptName(Decimal(id1), slug1) != ReceiptName(Decimal(id2), slug2)
  {
    if Decimal(id1) == Decimal(id2) {
      DecimalInjective(id1, id2);
    }
    var d1, d2 := Decimal(id1), Decimal(id2);
    assert forall i :: 0 <= i < |d1| ==> d1[i] != '_';
    assert forall i :: 0 <= i < |d2| ==> d2[i] != '_';
    ReceiptNamesDistinct(d1, d2, slug1, slug2);
  }

  /** Removing the staged image never removes the receipt PDF beside it. */
  lemma TempReceiptIsNotReceipt(dir: string, id: string, slug: string)
    ensures Join(dir, TempReceiptName(id, slug)) != Join(dir, ReceiptName(id, slug))
  {
    var t, p := Join(dir, TempReceiptName(id, slug)), Join(dir, ReceiptName(id, slug));
    assert t[|dir| + 1] == 't' && p[|dir| + 1] == 'B';
  }

  /** `f"{slug}.pdf"`: the name of a campaign's attachment. */
  function CampaignFileName(slug: string): (r: string)
    ensures IsPdfPath(r)
  {
    PdfSuffixes(slug);
    slug + ".pdf"
  }

  /** `f"temp_{slug}.jpg"`: where a campaign image is staged before conversion. */
  function CampaignTempName(slug: string): string
  {
    "temp_" + slug + ".jpg"
  }

  lemma CampaignTempIsNotFile(dir: string, slug: string)
    ensures Join(dir, CampaignTempName(slug)) != Join(dir, CampaignFileName(slug))
  {
    assert |Join(dir, CampaignTempName(slug))| != |Join(dir, CampaignFileName(slug))|;
  }

  /** A campaign's attachment is keyed by its truncated name alone: any two
      campaign names that agree on their first 20 characters get the same
      folder and file name. */
  lemma CampaignSlugsCollide(a: string, b: string)
    requires |a| >= SlugLength && |b| >= SlugLength && a[..SlugLength] == b[..SlugLength]
    ensures Slug(a) == Slug(b) && CampaignFileName(Slug(a)) == CampaignFileName(Slug(b))
  {
    assert forall i :: 0 <= i < SlugLength ==> a[i] == a[..SlugLength][i] == b[i];
  }

  /** Names that differ only by a space against an underscore collide as
      well: `Visa Gold` and `Visa_Gold` get the same folder and file names. */
  lemma UnderscoredCollides(a: string, i: nat)
    requires i < |a| && a[i] == ' '
    ensures Underscored(a[i := '_']) == Underscored(a)
  {
    var b := a[i := '_'];
    forall j | 0 <= j < |a| ensures Underscored(b)[j] == Underscored(a)[j] {
      if j != i {
        assert b[j] == a[j];
      }
    }
  }
}
