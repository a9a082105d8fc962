/** The recording-distance spinner: its selected index and its item labels. */
module Distances {
  import opened Options
  import opened Decimal

  /** The spinner's selected item id; it has four items */
  type DistIndex = i: nat | i < 4

  /** The label of spinner item `i`. The labels live in a resource file that
      is not part of this model; these are the four distances the collection
      plan names, each a distance in digits followed by the unit "cm". */
  function Label(i: DistIndex): (r: string)
    ensures |r| > 2 && r[|r| - 2..] == "cm" && IsDigits(r[..|r| - 2])
  {
    ["25cm", "50cm", "100cm", "300cm"][i]
  }

  /** Kotlin's `dropLast(n)`: everything but the last `n` characters */
  function DropLast(s: string, n: nat): (r: string)
    ensures r <= s
    ensures |r| == if |s| <= n then 0 else |s| - n
  {
    if |s| <= n then [] else s[..|s| - n]
  }

  /** The selected label with its two-letter unit removed: "25cm" gives "25" */
  function Tag(i: DistIndex): (r: string)
    ensures IsDigits(r) && r != []
    ensures r + "cm" == Label(i)
  {
    var r := DropLast(Label(i), 2);
    assert r == Label(i)[..|Label(i)| - 2];
    r
  }

  /** The index whose tag is `t`, if any */
  function TagIndex(t: string): (r: Option<DistIndex>)
    ensures r.Some? ==> Tag(r.value) == t
  {
    if t == Tag(0) then Some(0)
    else if t == Tag(1) then Some(1)
    else if t == Tag(2) then Some(2)
    else if t == Tag(3) then Some(3)
    else None
  }

  /** Every tag is recognised again, so the four tags are distinct */
  lemma TagIndexTag(i: DistIndex)
    ensures TagIndex(Tag(i)) == Some(i)
  {
    assert Tag(0) == "25" && Tag(1) == "50" && Tag(2) == "100" && Tag(3) == "300";
  }
}
