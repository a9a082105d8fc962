/** The activity's input validator and the output file name it derives from
    the four inputs, with a decoder that recovers those inputs from a name. */
module Naming {
  import opened Options
  import opened Decimal
  import opened Distances

  /** `inputValidator`: neither id text is empty or reads as a number <= 0 */
  function InputValid(userId: string, dataId: string): (r: bool)
    requires IsDigits(userId) && IsDigits(dataId)
    ensures r ==> userId != "" && dataId != ""
  {
    if userId == "" || Parse(userId) <= 0 then false
    else if dataId == "" || Parse(dataId) <= 0 then false
    else true
  }

  /** The input is refused exactly when one of the id fields holds nothing
      but zeros (or nothing at all) */
  lemma InputValidMeans(userId: string, dataId: string)
    requires IsDigits(userId) && IsDigits(dataId)
    ensures InputValid(userId, dataId) <==> HasNonZeroDigit(userId) && HasNonZeroDigit(dataId)
  {
    ParsePositive(userId);
    ParsePositive(dataId);
  }

  /** The name's kind part: the spoof switch decides between the two */
  function KindPrefix(spoof: bool): string {
    if spoof then "spoof-u" else "genuine-u"
  }

  /** The file `updateFileName` derives for valid input: the directory, the
      kind, the user id, the distance tag and the data id, both ids written
      back from their numeric value */
  function FileName(dir: string, spoof: bool, userId: string, dist: DistIndex, dataId: string): string
    requires IsDigits(userId) && IsDigits(dataId)
  {
    dir + "/" + KindPrefix(spoof) + Show(Parse(userId)) + "-" + Tag(dist)
    + "-d" + Show(Parse(dataId)) + ".wav"
  }

  /** A derived name lies in the directory and has the .wav extension */
  lemma FileNameShape(dir: string, spoof: bool, userId: string, dist: DistIndex, dataId: string)
    requires IsDigits(userId) && IsDigits(dataId)
    ensures dir + "/" <= FileName(dir, spoof, userId, dist, dataId)
    ensures var r := FileName(dir, spoof, userId, dist, dataId); |r| >= 4 && r[|r| - 4..] == ".wav"
  {
    var r := FileName(dir, spoof, userId, dist, dataId);
    assert r == (dir + "/") + r[|dir| + 1..];
  }

  /** What a file name records about its sample */
  datatype SampleKey = SampleKey(spoof: bool, userId: nat, dist: DistIndex, dataId: nat)

  /** The sample a file name stands for, if it has the derived shape */
  function DecodeFileName(dir: string, name: string): Option<SampleKey> {
    var rest :- StripPrefix(dir + "/", name);
    var kind :- TakeKind(rest);
    var user :- TakeNumber(kind.1);
    var afterUser :- StripPrefix("-", user.1);
    DecodeDistanceAndData(kind.0, user.0, afterUser)
  }

  /** The part of a name after "<kind><userId>-" */
  function DecodeDistanceAndData(spoof: bool, userId: nat, s: string): Option<SampleKey> {
    var dist :- TakeTag(s);
    var afterDist :- StripPrefix("-d", dist.1);
    var data :- TakeNumber(afterDist);
    if data.1 == ".wav" then Some(SampleKey(spoof, userId, dist.0, data.0)) else None
  }

  function StripPrefix(p: string, s: string): (r: Option<string>)
    ensures r.Some? <==> p <= s
    ensures r.Some? ==> s == p + r.value
  {
    if p <= s then Some(s[|p|..]) else None
  }

  /** Length of the longest run of digits at the start of `s` */
  function SpanDigits(s: string): (n: nat)
    ensures n <= |s| && IsDigits(s[..n])
    ensures n < |s| ==> !IsDigit(s[n])
  {
    if s != [] && IsDigit(s[0]) then
      var n := 1 + SpanDigits(s[1..]);
      assert s[..n] == [s[0]] + s[1..][..n - 1];
      n
    else 0
  }

  function TakeKind(s: string): Option<(bool, string)> {
    if "spoof-u" <= s then Some((true, s[7..]))
    else if "genuine-u" <= s then Some((false, s[9..]))
    else None
  }

  function TakeNumber(s: string): Option<(nat, string)> {
    var n := SpanDigits(s);
    if n == 0 then None else Some((Parse(s[..n]), s[n..]))
  }

  function TakeTag(s: string): Option<(DistIndex, string)> {
    var n := SpanDigits(s);
    var i :- TagIndex(s[..n]);
    Some((i, s[n..]))
  }

  lemma {:induction false} SpanDigitsConcat(a: string, b: string)
    requires IsDigits(a)
    requires b != [] && !IsDigit(b[0])
    ensures SpanDigits(a + b) == |a|
  {
    if a == [] {
      assert a + b == b;
    } else {
      assert (a + b)[0] == a[0];
      assert (a + b)[1..] == a[1..] + b;
      SpanDigitsConcat(a[1..], b);
    }
  }

  lemma TakeNumberConcat(a: string, b: string)
    requires IsDigits(a) && a != []
    requires b != [] && !IsDigit(b[0])
    ensures TakeNumber(a + b) == Some((Parse(a), b))
  {
    SpanDigitsConcat(a, b);
    assert (a + b)[..|a|] == a && (a + b)[|a|..] == b;
  }

  lemma TakeTagConcat(i: DistIndex, b: string)
    requires b != [] && !IsDigit(b[0])
    ensures TakeTag(Tag(i) + b) == Some((i, b))
  {
    var a := Tag(i);
    SpanDigitsConcat(a, b);
    assert (a + b)[..|a|] == a && (a + b)[|a|..] == b;
    TagIndexTag(i);
  }

  lemma TakeKindConcat(spoof: bool, b: string)
    ensures TakeKind(KindPrefix(spoof) + b) == Some((spoof, b))
  {
    var s := KindPrefix(spoof) + b;
    if !spoof {
      assert s[0] == 'g';
      assert !("spoof-u" <= s);
      assert s[..9] == "genuine-u";
    } else {
      assert s[..7] == "spoof-u";
    }
  }

  lemma StripPrefixConcat(p: string, b: string)
    ensures StripPrefix(p, p + b) == Some(b)
  {
    assert (p + b)[..|p|] == p;
  }

  /** Round trip: a derived name decodes to the kind, the numeric ids and the
      distance it was built from */
  lemma DecodeFileNameOf(dir: string, spoof: bool, userId: string, dist: DistIndex, dataId: string)
    requires IsDigits(userId) && IsDigits(dataId)
    ensures DecodeFileName(dir, FileName(dir, spoof, userId, dist, dataId))
            == Some(SampleKey(spoof, Parse(userId), dist, Parse(dataId)))
  {
    var u, d, t := Show(Parse(userId)), Show(Parse(dataId)), Tag(dist);
    var tail := "-d" + (d + ".wav");
    var afterUser := t + tail;
    var afterKind := u + ("-" + afterUser);
    var rest := KindPrefix(spoof) + afterKind;
    var name := FileName(dir, spoof, userId, dist, dataId);
    Reassociate(dir + "/", KindPrefix(spoof), u, "-", t, "-d", d, ".wav");
    StripPrefixConcat(dir + "/", rest);
    TakeKindConcat(spoof, afterKind);
    TakeNumberConcat(u, "-" + afterUser);
    ParseShow(Parse(userId));
    StripPrefixConcat("-", afterUser);
    DecodeDistanceAndDataOf(spoof, Parse(userId), dist, d, Parse(dataId));
  }

  lemma Reassociate(a: string, b: string, c: string, d: string, e: string, f: string, g: string, h: string)
    ensures a + b + c + d + e + f + g + h == a + (b + (c + (d + (e + (f + (g + h))))))
  {
  }

  lemma DecodeDistanceAndDataOf(spoof: bool, userId: nat, dist: DistIndex, d: string, dataId: nat)
    requires d == Show(dataId)
    ensures DecodeDistanceAndData(spoof, userId, Tag(dist) + ("-d" + (d + ".wav")))
            == Some(SampleKey(spoof, userId, dist, dataId))
  {
    TakeTagConcat(dist, "-d" + (d + ".wav"));
    StripPrefixConcat("-d", d + ".wav");
    TakeNumberConcat(d, ".wav");
    ParseShow(dataId);
  }

  /** Two inputs are written to the same file exactly when they agree on the
      spoof flag, the distance and the numeric value of both ids */
  lemma FileNameInjective(dir: string, spoof: bool, userId: string, dist: DistIndex, dataId: string,
                          spoof': bool, userId': string, dist': DistIndex, dataId': string)
    requires IsDigits(userId) && IsDigits(dataId) && IsDigits(userId') && IsDigits(dataId')
    ensures FileName(dir, spoof, userId, dist, dataId) == FileName(dir, spoof', userId', dist', dataId')
            <==> spoof == spoof' && Parse(userId) == Parse(userId') && dist == dist'
                 && Parse(dataId) == Parse(dataId')
  {
    DecodeFileNameOf(dir, spoof, userId, dist, dataId);
    DecodeFileNameOf(dir, spoof', userId', dist', dataId');
  }

  /** genuine, user 5, 25cm, data 3 */
  lemma GenuineExample(dir: string)
    ensures FileName(dir, false, "5", 0, "3") == dir + "/genuine-u5-25-d3.wav"
  {
  }

  /** spoof, user 5, 100cm, data 3 */
  lemma SpoofExample(dir: string)
    ensures FileName(dir, true, "5", 2, "3") == dir + "/spoof-u5-100-d3.wav"
  {
  }

  /** Leading zeros do not reach the name: user "007", data "03" */
  lemma LeadingZerosExample(dir: string)
    ensures FileName(dir, false, "007", 0, "03") == dir + "/genuine-u7-25-d3.wav"
  {
    NormaliseExample();
    LeadingZero("3");
    assert "0" + "3" == "03";
    assert Parse("3") == 3 && Show(3) == "3";
  }

  /** An empty user id or a data id of "0" is refused */
  lemma RefusedExamples(dataId: string, userId: string)
    requires IsDigits(dataId) && IsDigits(userId)
    ensures !InputValid("", dataId)
    ensures !InputValid(userId, "0")
  {
    InputValidMeans("", dataId);
    InputValidMeans(userId, "0");
    assert !HasNonZeroDigit("0");
  }
}
