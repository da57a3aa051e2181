/**
 * The dealer analytics dashboard's derived views of the inquiry list: the status
 * distribution for the pie chart, the recent-inquiries table (the first ten rows), and for
 * each row the unit-of-interest cell, the message preview, the inquiry-type label and the
 * status and priority badges. Every view is a pure function of the analytics payload.
 */
module DealerAnalytics {
  import opened Wrappers
  import opened JsValues

  /** The fields of a listing inquiry the dashboard reads. */
  datatype Inquiry = Inquiry(
    id: nat,
    customerName: Option<string>,
    customerEmail: string,
    customerPhone: Option<string>,
    message: Option<string>,
    inquiryType: string,
    status: string,
    priority: string)

  // ---------------------------------------------------------------------------
  // Status distribution
  // ---------------------------------------------------------------------------

  /** The statuses the chart counts, in chart order. */
  datatype StatusKind = New | Responded | Qualified | Converted | Lost

  /** The status value an inquiry carries for each kind. */
  function StatusValue(k: StatusKind): string {
    match k
    case New => "new"
    case Responded => "responded"
    case Qualified => "qualified"
    case Converted => "converted"
    case Lost => "lost"
  }

  function Rank(k: StatusKind): nat {
    match k
    case New => 0
    case Responded => 1
    case Qualified => 2
    case Converted => 3
    case Lost => 4
  }

  /** One slice of the pie chart; its name and color follow from its kind. */
  datatype Slice = Slice(kind: StatusKind, value: nat)

  predicate KnownStatus(status: string) {
    status == "new" || status == "responded" || status == "qualified"
    || status == "converted" || status == "lost"
  }

  /** The number of inquiries whose status is the one `k` stands for. */
  function Count(inquiries: seq<Inquiry>, k: StatusKind): (n: nat)
    ensures n <= |inquiries|
    ensures n == 0 <==> forall i | 0 <= i < |inquiries| :: inquiries[i].status != StatusValue(k)
  {
    if inquiries == [] then 0
    else (if inquiries[0].status == StatusValue(k) then 1 else 0) + Count(inquiries[1..], k)
  }

  function SliceOf(inquiries: seq<Inquiry>, k: StatusKind): Slice {
    Slice(k, Count(inquiries, k))
  }

  /** The five slices before zero counts are dropped. */
  function AllSlices(inquiries: seq<Inquiry>): seq<Slice> {
    [SliceOf(inquiries, New), SliceOf(inquiries, Responded), SliceOf(inquiries, Qualified),
     SliceOf(inquiries, Converted), SliceOf(inquiries, Lost)]
  }

  function Total(slices: seq<Slice>): nat {
    if slices == [] then 0 else slices[0].value + Total(slices[1..])
  }

  predicate RankOrdered(slices: seq<Slice>) {
    forall i, j | 0 <= i < j < |slices| :: Rank(slices[i].kind) < Rank(slices[j].kind)
  }

  /** `filter(item => item.value > 0)`. */
  function DropEmpty(slices: seq<Slice>): (r: seq<Slice>)
    ensures forall s :: s in r <==> s in slices && s.value > 0
    ensures Total(r) == Total(slices)
    ensures RankOrdered(slices) ==> RankOrdered(r)
  {
    if slices == [] then []
    else if slices[0].value > 0 then [slices[0]] + DropEmpty(slices[1..])
    else DropEmpty(slices[1..])
  }

  /**
   * `inquiryStatusData`: the counts for new, responded, qualified, converted and lost, in that
   * order, without the zero counts.
   */
  function StatusData(inquiries: seq<Inquiry>): (r: seq<Slice>)
    ensures forall s | s in r :: s.value > 0 && s.value == Count(inquiries, s.kind)
    ensures forall k: StatusKind :: Slice(k, Count(inquiries, k)) in r <==> Count(inquiries, k) > 0
    ensures RankOrdered(r)
  {
    AllSlicesExact(inquiries);
    AllSlicesOrdered(inquiries);
    DropEmpty(AllSlices(inquiries))
  }

  lemma AllSlicesOrdered(inquiries: seq<Inquiry>)
    ensures RankOrdered(AllSlices(inquiries))
  {
    FiveKindsOrdered(Count(inquiries, New), Count(inquiries, Responded), Count(inquiries, Qualified),
                     Count(inquiries, Converted), Count(inquiries, Lost));
  }

  lemma FiveKindsOrdered(a: nat, b: nat, c: nat, d: nat, e: nat)
    ensures RankOrdered([Slice(New, a), Slice(Responded, b), Slice(Qualified, c),
                         Slice(Converted, d), Slice(Lost, e)])
  {
    var all := [Slice(New, a), Slice(Responded, b), Slice(Qualified, c), Slice(Converted, d), Slice(Lost, e)];
    assert forall i | 0 <= i < |all| :: Rank(all[i].kind) == i;
  }

  /** Each of the five slices carries its own kind's count, and every kind has its slice. */
  lemma AllSlicesExact(inquiries: seq<Inquiry>)
    ensures forall s | s in AllSlices(inquiries) :: s.value == Count(inquiries, s.kind)
    ensures forall k: StatusKind :: Slice(k, Count(inquiries, k)) in AllSlices(inquiries)
  {
    var all := AllSlices(inquiries);
    assert forall i | 0 <= i < |all| :: all[i].value == Count(inquiries, all[i].kind);
    forall k: StatusKind
      ensures Slice(k, Count(inquiries, k)) in all
    {
      SliceAtRank(inquiries, k);
    }
  }

  /** The slice of kind `k` sits at position `Rank(k)`. */
  lemma SliceAtRank(inquiries: seq<Inquiry>, k: StatusKind)
    ensures Rank(k) < |AllSlices(inquiries)|
    ensures AllSlices(inquiries)[Rank(k)] == Slice(k, Count(inquiries, k))
  {
  }

  /** The sum of the five counts, which is what the chart's slices add up to. */
  function SumCounts(inquiries: seq<Inquiry>): nat {
    Count(inquiries, New) + Count(inquiries, Responded) + Count(inquiries, Qualified)
    + Count(inquiries, Converted) + Count(inquiries, Lost)
  }

  lemma TotalOfAllSlices(inquiries: seq<Inquiry>)
    ensures Total(AllSlices(inquiries)) == SumCounts(inquiries)
  {
    var s := AllSlices(inquiries);
    assert s[4..][1..] == [];
    assert Total(s[4..]) == s[4].value;
    assert s[3..][1..] == s[4..];
    assert Total(s[3..]) == s[3].value + Total(s[4..]);
    assert s[2..][1..] == s[3..];
    assert Total(s[2..]) == s[2].value + Total(s[3..]);
    assert s[1..][1..] == s[2..];
    assert Total(s[1..]) == s[1].value + Total(s[2..]);
  }

  /**
   * The chart never counts an inquiry twice: the five counts add up to at most the number of
   * inquiries, and reach it exactly when every inquiry has one of the five statuses.
   */
  lemma {:induction false} StatusCountsBounded(inquiries: seq<Inquiry>)
    ensures SumCounts(inquiries) <= |inquiries|
    ensures SumCounts(inquiries) == |inquiries| <==>
      forall i | 0 <= i < |inquiries| :: KnownStatus(inquiries[i].status)
  {
    if inquiries != [] {
      var rest := inquiries[1..];
      StatusCountsBounded(rest);
      SumCountsStep(inquiries);
      if SumCounts(inquiries) == |inquiries| {
        forall i | 0 <= i < |inquiries|
          ensures KnownStatus(inquiries[i].status)
        {
          if i > 0 {
            assert inquiries[i] == rest[i - 1];
          }
        }
      }
      if forall i | 0 <= i < |inquiries| :: KnownStatus(inquiries[i].status) {
        forall i | 0 <= i < |rest|
          ensures KnownStatus(rest[i].status)
        {
          assert rest[i] == inquiries[i + 1];
        }
      }
    }
  }

  /** The first inquiry adds one to exactly one of the five counts when its status is known. */
  lemma SumCountsStep(inquiries: seq<Inquiry>)
    requires inquiries != []
    ensures SumCounts(inquiries)
         == (if KnownStatus(inquiries[0].status) then 1 else 0) + SumCounts(inquiries[1..])
  {
  }

  /** The pie chart's slices add up to at most the number of inquiries. */
  lemma StatusDataTotal(inquiries: seq<Inquiry>)
    ensures Total(StatusData(inquiries)) <= |inquiries|
  {
    TotalOfAllSlices(inquiries);
    StatusCountsBounded(inquiries);
  }

  // ---------------------------------------------------------------------------
  // The recent-inquiries table
  // ---------------------------------------------------------------------------

  const ShownRows := 10

  /** `recentInquiries.slice(0, 10)`. */
  function ShownInquiries(inquiries: seq<Inquiry>): (r: seq<Inquiry>)
    ensures r <= inquiries
    ensures |r| == if |inquiries| < ShownRows then |inquiries| else ShownRows
  {
    if |inquiries| < ShownRows then inquiries else inquiries[..ShownRows]
  }

  function CustomerLabel(name: Option<string>): (shown: string)
    ensures shown == "Anonymous" <==> !TruthyString(name) || name.value == "Anonymous"
    ensures TruthyString(name) ==> shown == name.value
  {
    if TruthyString(name) then name.value else "Anonymous"
  }

  /** The links behind the row's call and email buttons; each needs a non-empty value. */
  function ContactLinks(inq: Inquiry): (links: seq<string>)
    ensures |links| == (if TruthyString(inq.customerPhone) then 1 else 0) + (if inq.customerEmail != "" then 1 else 0)
    ensures TruthyString(inq.customerPhone) ==> links[0] == "tel:" + inq.customerPhone.value
    ensures inq.customerEmail != "" ==> links[|links| - 1] == "mailto:" + inq.customerEmail
  {
    (if TruthyString(inq.customerPhone) then ["tel:" + inq.customerPhone.value] else [])
    + (if inq.customerEmail != "" then ["mailto:" + inq.customerEmail] else [])
  }

  // ---------------------------------------------------------------------------
  // The message: unit of interest and customer text
  // ---------------------------------------------------------------------------

  const GeneralInquiry := "General Inquiry"
  const InquiryPrefix := "Inquiry about: "
  const Separator := "\n\n"

  /** `s.split('\n\n')[0]`. */
  function FirstSegment(s: string): (r: string)
    ensures r <= s
    ensures |r| < |s| ==> OccursAt(s, Separator, |r|)
    ensures forall j: nat | j < |r| :: !OccursAt(s, Separator, j)
  {
    match IndexOf(s, Separator)
    case None => s
    case Some(i) => s[..i]
  }

  /** Everything after the first separator, `None` when there is none. */
  function AfterSeparator(s: string): (r: Option<string>)
    ensures r.Some? <==> Includes(s, Separator)
    ensures r.Some? ==> |FirstSegment(s)| + |Separator| + |r.value| == |s|
    ensures r.Some? ==> s == FirstSegment(s) + Separator + r.value
  {
    match IndexOf(s, Separator)
    case None => None
    case Some(i) =>
      assert s == s[..i] + s[i..i + 2] + s[i + 2..];
      Some(s[i + 2..])
  }

  /** `inquiry.message || 'General Inquiry'`. */
  function FullMessage(message: Option<string>): string {
    if TruthyString(message) then message.value else GeneralInquiry
  }

  /**
   * `unitInfo`: the first segment with its first "Inquiry about: " removed, or
   * "General Inquiry" when nothing is left.
   */
  function UnitInfo(message: Option<string>): (u: string)
    ensures u != ""
    ensures !Includes(FirstSegment(FullMessage(message)), InquiryPrefix) && FirstSegment(FullMessage(message)) != "" ==>
      u == FirstSegment(FullMessage(message))
  {
    var u := ReplaceFirst(FirstSegment(FullMessage(message)), InquiryPrefix, "");
    if u == "" then GeneralInquiry else u
  }

  /** `parts[1] || ''`: the second segment of the message. */
  function CustomerMessage(message: Option<string>): (m: string)
    ensures !Includes(FullMessage(message), Separator) ==> m == ""
    ensures Includes(FullMessage(message), Separator) ==>
      m <= FullMessage(message)[|FirstSegment(FullMessage(message))| + |Separator|..]
  {
    match AfterSeparator(FullMessage(message))
    case None => ""
    case Some(rest) => FirstSegment(rest)
  }

  /**
   * A message in the inquiry forms' layout splits back into its parts: the unit of interest
   * after "Inquiry about: ", and the customer's own text after the blank line.
   */
  lemma ComposedMessageSplits(unit: string, body: string)
    requires unit != "" && '\n' !in unit && !Includes(body, Separator)
    ensures UnitInfo(Some(InquiryPrefix + unit + Separator + body)) == unit
    ensures CustomerMessage(Some(InquiryPrefix + unit + Separator + body)) == body
  {
    var full := InquiryPrefix + unit + Separator + body;
    assert FullMessage(Some(full)) == full;
    IndexOfAfterFree(InquiryPrefix + unit, Separator, body);
    var head := InquiryPrefix + unit;
    assert FirstSegment(full) == head by {
      assert full[..|head|] == head;
    }
    IndexOfAfterFree([], InquiryPrefix, unit);
    assert [] + InquiryPrefix + unit == head;
    assert ReplaceFirst(head, InquiryPrefix, "") == unit by {
      assert head[|InquiryPrefix|..] == unit;
    }
    assert AfterSeparator(full) == Some(body) by {
      assert full[|head| + 2..] == body;
    }
  }

  // ---------------------------------------------------------------------------
  // The unit-of-interest cell
  // ---------------------------------------------------------------------------

  /** What the cell shows. The HTML-link form is kept opaque: it is not parsed here. */
  datatype UnitCell =
    | HtmlLinkCell(unitInfo: string)
    | LegacyLinkCell(href: string, title: string)
    | PlainCell(text: string)

  const HtmlLinkProbe := "<a href="
  const TrailerProbe := "(Trailer ID:"
  const TruckProbe := "(Truck ID:"
  const TrailerMarker := "(Trailer ID: "
  const TruckMarker := "(Truck ID: "
  const TrailerPath := "/trailers/"
  const TruckPath := "/trucks/"

  /** `head`, then one or more digits, then `)`, starting at position `q` of `s`. */
  predicate MarkerAt(s: string, head: string, q: nat) {
    OccursAt(s, head, q)
    && var rest := s[q + |head|..];
       0 < LeadingDigits(rest) < |rest| && rest[LeadingDigits(rest)] == ')'
  }

  /** The first position where the marker regular expression matches. */
  function FindMarker(s: string, head: string): (r: Option<nat>)
    ensures r.Some? ==> MarkerAt(s, head, r.value)
    ensures r.Some? ==> forall q: nat | q < r.value :: !MarkerAt(s, head, q)
    ensures r.None? ==> forall q: nat :: !MarkerAt(s, head, q)
  {
    FindMarkerFrom(s, head, 0)
  }

  function FindMarkerFrom(s: string, head: string, k: nat): (r: Option<nat>)
    requires forall q: nat | q < k :: !MarkerAt(s, head, q)
    ensures r.Some? ==> MarkerAt(s, head, r.value)
    ensures r.Some? ==> forall q: nat | q < r.value :: !MarkerAt(s, head, q)
    ensures r.None? ==> forall q: nat :: !MarkerAt(s, head, q)
    decreases |s| - k
  {
    if |s| < k + |head| then None
    else if MarkerAt(s, head, k) then Some(k)
    else FindMarkerFrom(s, head, k + 1)
  }

  /**
   * The first marker match split into what precedes it, its captured digits and what follows
   * its closing parenthesis.
   */
  function MarkerSplit(unitInfo: string, head: string): (r: Option<(string, string, string)>)
    ensures r.None? <==> FindMarker(unitInfo, head).None?
    ensures r.Some? ==>
      FindMarker(unitInfo, head) == Some(|r.value.0|)
      && r.value.1 != [] && AllDigits(r.value.1)
      && unitInfo == r.value.0 + head + r.value.1 + ")" + r.value.2
  {
    match FindMarker(unitInfo, head)
    case None => None
    case Some(q) =>
      var start := q + |head|;
      var k := LeadingDigits(unitInfo[start..]);
      assert unitInfo[start..start + k] == unitInfo[start..][..k];
      assert unitInfo == unitInfo[..q] + unitInfo[q..start] + unitInfo[start..start + k]
                         + unitInfo[start + k..start + k + 1] + unitInfo[start + k + 1..];
      Some((unitInfo[..q], unitInfo[start..start + k], unitInfo[start + k + 1..]))
  }

  /**
   * A legacy link: the captured digits after `path` ("null" when the marker does not match),
   * and the title without the first marker and the whitespace before it.
   */
  function LegacyLink(unitInfo: string, head: string, path: string): (cell: UnitCell)
    ensures cell.LegacyLinkCell?
    ensures FindMarker(unitInfo, head).None? ==> cell == LegacyLinkCell(path + "null", unitInfo)
  {
    match MarkerSplit(unitInfo, head)
    case None => LegacyLinkCell(path + "null", unitInfo)
    case Some((before, digits, after)) => LegacyLinkCell(path + digits, TrimEnd(before) + after)
  }

  /** The cell for a unit of interest: HTML link first, then trailer, then truck, else text. */
  function UnitCellOf(unitInfo: string): (cell: UnitCell)
    ensures cell.HtmlLinkCell? <==> Includes(unitInfo, HtmlLinkProbe)
    ensures cell.PlainCell? <==>
      !Includes(unitInfo, HtmlLinkProbe) && !Includes(unitInfo, TrailerProbe) && !Includes(unitInfo, TruckProbe)
    ensures cell.PlainCell? ==> cell.text == unitInfo
    ensures cell.LegacyLinkCell? && Includes(unitInfo, TrailerProbe) ==> StartsWith(cell.href, TrailerPath)
    ensures cell.LegacyLinkCell? && !Includes(unitInfo, TrailerProbe) ==> StartsWith(cell.href, TruckPath)
  {
    if Includes(unitInfo, HtmlLinkProbe) then HtmlLinkCell(unitInfo)
    else if Includes(unitInfo, TrailerProbe) then LegacyLink(unitInfo, TrailerMarker, TrailerPath)
    else if Includes(unitInfo, TruckProbe) then LegacyLink(unitInfo, TruckMarker, TruckPath)
    else PlainCell(unitInfo)
  }

  /** The two markers open with `(`, have no other `(`, and contain no `<`. */
  predicate MarkerShape(marker: string) {
    |marker| > 0 && marker[0] == '(' && '(' !in marker[1..] && '<' !in marker && '\n' !in marker
  }

  lemma MarkersHaveShape()
    ensures MarkerShape(TrailerMarker) && MarkerShape(TruckMarker)
  {
    assert TrailerMarker[1..] == "Trailer ID: ";
    assert TruckMarker[1..] == "Truck ID: ";
  }

  /** The line a legacy inquiry form wrote for a unit: `<title> <marker><digits>)`. */
  function LegacyLine(title: string, marker: string, digits: string): string {
    title + " " + marker + digits + ")"
  }

  /** In a legacy line whose title has no `(` and no `<`, the only `(` opens the marker. */
  lemma LegacyLineChars(title: string, marker: string, digits: string, q: nat)
    requires '(' !in title && '<' !in title && MarkerShape(marker) && AllDigits(digits)
    requires q < |LegacyLine(title, marker, digits)|
    ensures LegacyLine(title, marker, digits)[q] != '<'
    ensures '\n' !in title ==> LegacyLine(title, marker, digits)[q] != '\n'
    ensures q != |title| + 1 ==> LegacyLine(title, marker, digits)[q] != '('
  {
    var s := LegacyLine(title, marker, digits);
    var m := |title| + 1;
    if q < |title| {
      assert s[q] == title[q];
    } else if q == |title| {
      assert s[q] == ' ';
    } else if q == m {
      assert s[q] == marker[0];
    } else if q < m + |marker| {
      assert s[q] == marker[q - m];
      assert s[q] == marker[1..][q - m - 1];
    } else if q < |s| - 1 {
      assert s[q] == digits[q - m - |marker|];
    } else {
      assert s[q] == ')';
    }
  }

  /** The first marker of a legacy line is the one after the title, and it has no HTML link. */
  lemma LegacyLineMarker(title: string, marker: string, digits: string)
    requires '(' !in title && '<' !in title && MarkerShape(marker)
    requires digits != [] && AllDigits(digits)
    ensures !Includes(LegacyLine(title, marker, digits), HtmlLinkProbe)
    ensures FindMarker(LegacyLine(title, marker, digits), marker) == Some(|title| + 1)
  {
    LegacyLineHasNoLink(title, marker, digits);
    LegacyLineMarkerAt(title, marker, digits);
    LegacyLineNoEarlierMarker(title, marker, digits);
  }

  lemma LegacyLineHasNoLink(title: string, marker: string, digits: string)
    requires '(' !in title && '<' !in title && MarkerShape(marker) && AllDigits(digits)
    ensures !Includes(LegacyLine(title, marker, digits), HtmlLinkProbe)
  {
    var s := LegacyLine(title, marker, digits);
    forall k | 0 <= k < |s|
      ensures s[k] != '<'
    {
      LegacyLineChars(title, marker, digits, k);
    }
    AbsentWhenHeadAbsent(s, HtmlLinkProbe);
  }

  lemma LegacyLineMarkerAt(title: string, marker: string, digits: string)
    requires digits != [] && AllDigits(digits)
    ensures MarkerAt(LegacyLine(title, marker, digits), marker, |title| + 1)
  {
    var s := LegacyLine(title, marker, digits);
    var q := |title| + 1;
    assert s[q..q + |marker|] == marker;
    assert s[q + |marker|..] == digits + [')'] + [];
    LeadingDigitsStopsAt(digits, ')', []);
  }

  lemma LegacyLineNoEarlierMarker(title: string, marker: string, digits: string)
    requires '(' !in title && '<' !in title && MarkerShape(marker) && AllDigits(digits)
    ensures forall p: nat | p < |title| + 1 :: !MarkerAt(LegacyLine(title, marker, digits), marker, p)
  {
    var s := LegacyLine(title, marker, digits);
    forall p: nat | p < |title| + 1
      ensures !MarkerAt(s, marker, p)
    {
      OccurrenceHead(s, marker, p);
      if p < |s| {
        LegacyLineChars(title, marker, digits, p);
      }
    }
  }

  /** A digit run closed by `)` is split off the same way whatever follows it. */
  lemma DigitRunUnique(d1: string, a1: string, d2: string, a2: string)
    requires AllDigits(d1) && AllDigits(d2) && d1 + ")" + a1 == d2 + ")" + a2
    ensures d1 == d2 && a1 == a2
  {
    LeadingDigitsStopsAt(d1, ')', a1);
    LeadingDigitsStopsAt(d2, ')', a2);
    assert d1 + [')'] + a1 == d1 + ")" + a1;
    assert d2 + [')'] + a2 == d2 + ")" + a2;
    var s := d1 + ")" + a1;
    assert d1 == s[..|d1|] && d2 == s[..|d2|];
    assert a1 == s[|d1| + 1..] && a2 == s[|d2| + 1..];
  }

  lemma TrimEndDropsSpace(t: string)
    ensures TrimEnd(t + " ") == TrimEnd(t)
  {
    assert (t + " ")[..|t|] == t;
  }

  /** The first marker of a legacy line splits it into the title and a space, and the digits. */
  lemma LegacyLineSplit(title: string, marker: string, digits: string)
    requires '(' !in title && '<' !in title && MarkerShape(marker)
    requires digits != [] && AllDigits(digits)
    ensures MarkerSplit(LegacyLine(title, marker, digits), marker) == Some((title + " ", digits, []))
  {
    var s := LegacyLine(title, marker, digits);
    LegacyLineMarker(title, marker, digits);
    var (before, d, after) := MarkerSplit(s, marker).value;
    assert |before| == |title| + 1;
    assert before == s[..|title| + 1] == title + " ";
    assert s == (title + " ") + marker + (digits + ")" + []);
    assert s == (title + " ") + marker + (d + ")" + after);
    assert d + ")" + after == digits + ")" + [];
    DigitRunUnique(d, after, digits, []);
  }

  /** The cell a legacy line's first marker yields: the digits' link and the title. */
  lemma LegacyLineLink(title: string, marker: string, path: string, digits: string)
    requires '(' !in title && '<' !in title && MarkerShape(marker)
    requires digits != [] && AllDigits(digits)
    ensures LegacyLink(LegacyLine(title, marker, digits), marker, path)
         == LegacyLinkCell(path + digits, TrimEnd(title))
  {
    LegacyLineSplit(title, marker, digits);
    TrimEndDropsSpace(title);
    assert TrimEnd(title + " ") + [] == TrimEnd(title);
  }

  /** A truck line does not contain the trailer probe, so it reaches the truck branch. */
  lemma TruckLineIsNotTrailer(title: string, digits: string)
    requires '(' !in title && '<' !in title && AllDigits(digits)
    ensures !Includes(LegacyLine(title, TruckMarker, digits), TrailerProbe)
  {
    var s := LegacyLine(title, TruckMarker, digits);
    MarkersHaveShape();
    forall p: nat
      ensures !OccursAt(s, TrailerProbe, p)
    {
      OccurrenceHead(s, TrailerProbe, p);
      if p < |s| {
        LegacyLineChars(title, TruckMarker, digits, p);
      }
      if p == |title| + 1 && p + |TrailerProbe| <= |s| {
        assert s[p + 3] == TruckMarker[3];
        assert s[p..p + |TrailerProbe|][3] == s[p + 3];
      }
    }
  }

  /** A probe that begins the marker occurs where the marker does. */
  lemma ProbeAtMarker(title: string, marker: string, digits: string, probe: string)
    requires probe <= marker
    ensures Includes(LegacyLine(title, marker, digits), probe)
  {
    var s := LegacyLine(title, marker, digits);
    var q := |title| + 1;
    assert s[q..q + |marker|] == marker;
    assert s[q..q + |probe|] == probe;
    assert OccursAt(s, probe, q);
  }

  lemma TrailerLineRoundTrip(title: string, digits: string)
    requires '(' !in title && '<' !in title && digits != [] && AllDigits(digits)
    ensures UnitCellOf(LegacyLine(title, TrailerMarker, digits)) == LegacyLinkCell(TrailerPath + digits, TrimEnd(title))
  {
    MarkersHaveShape();
    LegacyLineMarker(title, TrailerMarker, digits);
    LegacyLineLink(title, TrailerMarker, TrailerPath, digits);
    ProbeAtMarker(title, TrailerMarker, digits, TrailerProbe);
  }

  lemma TruckLineRoundTrip(title: string, digits: string)
    requires '(' !in title && '<' !in title && digits != [] && AllDigits(digits)
    ensures UnitCellOf(LegacyLine(title, TruckMarker, digits)) == LegacyLinkCell(TruckPath + digits, TrimEnd(title))
  {
    MarkersHaveShape();
    LegacyLineMarker(title, TruckMarker, digits);
    LegacyLineLink(title, TruckMarker, TruckPath, digits);
    TruckLineIsNotTrailer(title, digits);
    ProbeAtMarker(title, TruckMarker, digits, TruckProbe);
  }

  /**
   * The legacy round trip: a unit line written as `<title> (Trailer ID: <n>)` or
   * `<title> (Truck ID: <n>)` links to the listing with that id, and its shown title is the
   * original title without trailing whitespace.
   */
  lemma LegacyLineRoundTrip(title: string, isTrailer: bool, n: nat)
    requires '(' !in title && '<' !in title
    ensures var marker := if isTrailer then TrailerMarker else TruckMarker;
      UnitCellOf(LegacyLine(title, marker, NatToString(n)))
        == LegacyLinkCell((if isTrailer then TrailerPath else TruckPath) + NatToString(n), TrimEnd(title))
  {
    if isTrailer {
      TrailerLineRoundTrip(title, NatToString(n));
    } else {
      TruckLineRoundTrip(title, NatToString(n));
    }
  }

  /**
   * End to end: an inquiry whose message an older form wrote as
   * `Inquiry about: <title> (Truck ID: <n>)`, a blank line, then the customer's text, shows a
   * link to that truck (or trailer) under the trimmed title, and previews the customer's text.
   */
  lemma LegacyInquiryRoundTrip(title: string, isTrailer: bool, n: nat, body: string)
    requires '(' !in title && '<' !in title && '\n' !in title && !Includes(body, Separator)
    ensures var marker := if isTrailer then TrailerMarker else TruckMarker;
      var message := Some(InquiryPrefix + LegacyLine(title, marker, NatToString(n)) + Separator + body);
      UnitCellOf(UnitInfo(message))
        == LegacyLinkCell((if isTrailer then TrailerPath else TruckPath) + NatToString(n), TrimEnd(title))
      && CustomerMessage(message) == body
  {
    var marker := if isTrailer then TrailerMarker else TruckMarker;
    var line := LegacyLine(title, marker, NatToString(n));
    MarkersHaveShape();
    forall k | 0 <= k < |line|
      ensures line[k] != '\n'
    {
      LegacyLineChars(title, marker, NatToString(n), k);
    }
    ComposedMessageSplits(line, body);
    LegacyLineRoundTrip(title, isTrailer, n);
  }

  // ---------------------------------------------------------------------------
  // Preview, labels and badges
  // ---------------------------------------------------------------------------

  const PreviewLength := 50

  /** `substring(0, 50)` followed by "..." when the text is longer than 50 characters. */
  function Preview(m: string): (p: string)
    ensures |m| <= PreviewLength ==> p == m
    ensures |m| > PreviewLength ==>
      |p| == PreviewLength + 3 && p[..PreviewLength] == m[..PreviewLength] && p[PreviewLength..] == "..."
  {
    if |m| > PreviewLength then m[..PreviewLength] + "..." else m
  }

  /** A preview never exceeds 53 characters and always starts with the message's beginning. */
  lemma PreviewBounded(m: string)
    ensures |Preview(m)| <= PreviewLength + 3
    ensures var p := Preview(m); var k := if |m| < PreviewLength then |m| else PreviewLength;
      p[..k] == m[..k]
  {
  }

  /** The type badge: the first "_" becomes a space, then "trailer contact" and "contact" are renamed. */
  function TypeLabel(inquiryType: string): string {
    ReplaceFirst(ReplaceFirst(ReplaceFirst(inquiryType, "_", " "), "trailer contact", "trailer"), "contact", "truck")
  }

  /** A string without the `k`-th character of `pat` does not contain `pat`. */
  lemma AbsentWhenCharAbsent(s: string, pat: string, k: nat)
    requires k < |pat| && pat[k] !in s
    ensures !Includes(s, pat)
  {
    forall j: nat
      ensures !OccursAt(s, pat, j)
    {
      if j + |pat| <= |s| {
        assert s[j..j + |pat|][k] == s[j + k];
      }
    }
  }

  /** A type with no "_", no space and one letter of "contact" missing keeps its name. */
  lemma LabelUnchanged(inquiryType: string, k: nat)
    requires '_' !in inquiryType && ' ' !in inquiryType
    requires k < 7 && "contact"[k] !in inquiryType
    ensures TypeLabel(inquiryType) == inquiryType
  {
    AbsentWhenHeadAbsent(inquiryType, "_");
    AbsentWhenCharAbsent(inquiryType, "trailer contact", 7);
    AbsentWhenCharAbsent(inquiryType, "contact", k);
  }

  /** The inquiry types the analytics hook records are shown unchanged. */
  lemma TrackedTypesShowAsIs(inquiryType: string)
    requires inquiryType in ["general", "pricing", "availability", "inspection", "financing"]
    ensures TypeLabel(inquiryType) == inquiryType
  {
    if inquiryType == "inspection" {
      LabelUnchanged(inquiryType, 4);
    } else if inquiryType == "general" || inquiryType == "availability" {
      LabelUnchanged(inquiryType, 0);
    } else {
      LabelUnchanged(inquiryType, 1);
    }
  }

  datatype Variant = Default | Secondary | Outline | Destructive

  function StatusVariant(status: string): (v: Variant)
    ensures v == Default <==> status == "converted"
    ensures v == Secondary <==> status == "qualified"
    ensures v == Outline <==> status == "responded"
    ensures v == Destructive <==> status != "converted" && status != "qualified" && status != "responded"
  {
    if status == "converted" then Default
    else if status == "qualified" then Secondary
    else if status == "responded" then Outline
    else Destructive
  }

  function PriorityVariant(priority: string): (v: Variant)
    ensures v != Default
    ensures v == Destructive <==> priority == "high"
    ensures v == Secondary <==> priority == "medium"
    ensures v == Outline <==> priority != "high" && priority != "medium"
  {
    if priority == "high" then Destructive
    else if priority == "medium" then Secondary
    else Outline
  }
}
