/** The text form of an AnalysisResult in session storage. The source stores
    `JSON.stringify(result)` and reads it back with `JSON.parse`
    (src/hooks/useAnalysis.ts:110, :125); this model uses a length-prefixed
    field encoding in their place, because all the core relies on is that
    parsing what was stringified gives back the same value and that other text
    may fail to parse. A field is written `<length>:<text>`. */
module SessionCodec {
  import opened Strings
  import opened AnalysisTypes

  function EncodeField(f: string): string {
    NatToString(|f|) + ":" + f
  }

  function EncodeFields(fs: seq<string>): string {
    if |fs| == 0 then "" else EncodeField(fs[0]) + EncodeFields(fs[1..])
  }

  /** How many decimal digits `s` starts with. */
  function DigitRun(s: string): (k: nat)
    ensures k <= |s| && AllDigits(s[..k])
    ensures k < |s| ==> !IsDigit(s[k])
  {
    if |s| == 0 || !IsDigit(s[0]) then 0
    else
      var k := 1 + DigitRun(s[1..]);
      assert s[..k] == [s[0]] + s[1..][..k - 1];
      k
  }

  /** Reads one field off the front of `s`, giving the field and the rest. */
  function ReadField(s: string): (r: Option<(string, string)>)
    ensures r.Some? ==> |r.value.1| < |s|
  {
    var k := DigitRun(s);
    if k == 0 || k == |s| || s[k] != ':' then None
    else
      var n := DecimalValue(s[..k]);
      var body := s[k + 1..];
      if n > |body| then None else Some((body[..n], body[n..]))
  }

  function DecodeFields(s: string): Option<seq<string>>
    decreases |s|
  {
    if |s| == 0 then Some([])
    else
      match ReadField(s)
      case None => None
      case Some((f, rest)) =>
        match DecodeFields(rest)
        case None => None
        case Some(fs) => Some([f] + fs)
  }

  lemma {:induction false} DigitRunStopsAtColon(d: string, t: string)
    requires AllDigits(d)
    ensures DigitRun(d + ":" + t) == |d|
  {
    var s := d + ":" + t;
    if |d| > 0 {
      assert s[1..] == d[1..] + ":" + t;
      DigitRunStopsAtColon(d[1..], t);
    }
  }

  lemma ReadEncodedField(f: string, t: string)
    ensures ReadField(EncodeField(f) + t) == Some((f, t))
  {
    var d := NatToString(|f|);
    var s := EncodeField(f) + t;
    assert s == d + ":" + (f + t);
    DigitRunStopsAtColon(d, f + t);
    assert s[..|d|] == d;
    assert s[|d| + 1..] == f + t;
    NatToStringValue(|f|);
  }

  /** Decoding what was encoded gives back the same fields. */
  lemma {:induction false} DecodeEncodeFields(fs: seq<string>)
    ensures DecodeFields(EncodeFields(fs)) == Some(fs)
  {
    if |fs| > 0 {
      var s := EncodeFields(fs);
      ReadEncodedField(fs[0], EncodeFields(fs[1..]));
      DecodeEncodeFields(fs[1..]);
      assert [fs[0]] + fs[1..] == fs;
    }
  }

  // ---------------------------------------------------------------------------
  // Records

  function EncodeInsight(p: PreviewInsight): string {
    EncodeFields([IntToString(p.starRating), p.emotionalHook, p.conversionTease, p.category])
  }

  function DecodeInsight(s: string): Option<PreviewInsight> {
    match DecodeFields(s)
    case Some(fs) =>
      if |fs| != 4 then None
      else (
        match ParseInt(fs[0])
        case Some(star) => Some(PreviewInsight(star, fs[1], fs[2], fs[3]))
        case None => None)
    case None => None
  }

  function EncodeInsightList(ps: seq<PreviewInsight>): (r: seq<string>)
    ensures |r| == |ps|
    ensures forall i :: 0 <= i < |ps| ==> r[i] == EncodeInsight(ps[i])
  {
    if |ps| == 0 then [] else [EncodeInsight(ps[0])] + EncodeInsightList(ps[1..])
  }

  function DecodeInsightList(fs: seq<string>): Option<seq<PreviewInsight>> {
    if |fs| == 0 then Some([])
    else
      match DecodeInsight(fs[0])
      case None => None
      case Some(p) =>
        match DecodeInsightList(fs[1..])
        case None => None
        case Some(ps) => Some([p] + ps)
  }

  function EncodeInsights(ps: seq<PreviewInsight>): string {
    EncodeFields(EncodeInsightList(ps))
  }

  function DecodeInsights(s: string): Option<seq<PreviewInsight>> {
    match DecodeFields(s)
    case None => None
    case Some(fs) => DecodeInsightList(fs)
  }

  function EncodeAnalysis(a: Analysis): string {
    EncodeFields([IntToString(a.perceivedAge), EncodeInsights(a.previewInsights), a.details])
  }

  function DecodeAnalysis(s: string): Option<Analysis> {
    match DecodeFields(s)
    case None => None
    case Some(fs) =>
      if |fs| != 3 then None
      else
        match (ParseInt(fs[0]), DecodeInsights(fs[1]))
        case (Some(age), Some(ps)) => Some(Analysis(age, ps, fs[2]))
        case _ => None
  }

  /** Stands for `JSON.stringify` of an analysis result. */
  function Encode(r: AnalysisResult): string {
    EncodeFields([
      r.tempAnalysisId,
      IntToString(r.perceivedAge),
      EncodeInsights(r.previewInsights),
      IntToString(r.expiresAt),
      EncodeAnalysis(r.fullAnalysisData),
      r.imageData])
  }

  /** Stands for `JSON.parse`; None where `JSON.parse` would throw. */
  function Decode(s: string): Option<AnalysisResult> {
    match DecodeFields(s)
    case None => None
    case Some(fs) =>
      if |fs| != 6 then None
      else
        match (ParseInt(fs[1]), DecodeInsights(fs[2]), ParseInt(fs[3]), DecodeAnalysis(fs[4]))
        case (Some(age), Some(ps), Some(exp), Some(full)) =>
          Some(AnalysisResult(fs[0], age, ps, exp, full, fs[5]))
        case _ => None
  }

  lemma DecodeEncodeInsight(p: PreviewInsight)
    ensures DecodeInsight(EncodeInsight(p)) == Some(p)
  {
    DecodeEncodeFields([IntToString(p.starRating), p.emotionalHook, p.conversionTease, p.category]);
    ParseIntToString(p.starRating);
  }

  lemma {:induction false} DecodeEncodeInsightList(ps: seq<PreviewInsight>)
    ensures DecodeInsightList(EncodeInsightList(ps)) == Some(ps)
  {
    if |ps| > 0 {
      var fs := EncodeInsightList(ps);
      DecodeEncodeInsight(ps[0]);
      assert fs[1..] == EncodeInsightList(ps[1..]);
      DecodeEncodeInsightList(ps[1..]);
      assert [ps[0]] + ps[1..] == ps;
    }
  }

  lemma DecodeEncodeInsights(ps: seq<PreviewInsight>)
    ensures DecodeInsights(EncodeInsights(ps)) == Some(ps)
  {
    DecodeEncodeFields(EncodeInsightList(ps));
    DecodeEncodeInsightList(ps);
  }

  lemma DecodeEncodeAnalysis(a: Analysis)
    ensures DecodeAnalysis(EncodeAnalysis(a)) == Some(a)
  {
    DecodeEncodeFields([IntToString(a.perceivedAge), EncodeInsights(a.previewInsights), a.details]);
    ParseIntToString(a.perceivedAge);
    DecodeEncodeInsights(a.previewInsights);
  }

  /** Parsing what was stringified gives back the same analysis result. */
  lemma DecodeEncode(r: AnalysisResult)
    ensures Decode(Encode(r)) == Some(r)
  {
    DecodeEncodeFields([
      r.tempAnalysisId,
      IntToString(r.perceivedAge),
      EncodeInsights(r.previewInsights),
      IntToString(r.expiresAt),
      EncodeAnalysis(r.fullAnalysisData),
      r.imageData]);
    ParseIntToString(r.perceivedAge);
    ParseIntToString(r.expiresAt);
    DecodeEncodeInsights(r.previewInsights);
    DecodeEncodeAnalysis(r.fullAnalysisData);
  }

  /** The stored text is never empty, so `stored ? JSON.parse(stored) : null`
      always takes the parsing branch for it. */
  lemma EncodeNonEmpty(r: AnalysisResult)
    ensures Encode(r) != ""
  {
  }

  /** Text that is not a sequence of fields does not parse. */
  lemma NotFieldsDoesNotDecode(s: string)
    requires |s| > 0 && !IsDigit(s[0])
    ensures Decode(s) == None
  {
  }
}
