/** The values the client passes between its pages and the HTTP API: the
    metadata of a selected file, the image records the backend lists, the
    nullable numbers of its JSON responses, and `Array.prototype.filter`. */
module Records {
  import opened Strings

  datatype Option<T> = None | Some(value: T)

  /** The fields of a browser `File` the client reads. `mimeType` is the
      declared `file.type`; nothing inspects the bytes. */
  datatype FileInfo = FileInfo(name: string, mimeType: string, size: nat, lastModified: int)

  /** `${name}-${size}-${lastModified}`: the identity of a staged file and
      the Idempotency-Key of a single-file upload. */
  function FileKey(f: FileInfo): string
  {
    f.name + "-" + NatToString(f.size) + "-" + IntToString(f.lastModified)
  }

  predicate NoDash(s: string) { forall i :: 0 <= i < |s| ==> s[i] != '-' }

  /** Splitting a string at its last dash is unambiguous. */
  lemma SplitAtLastDash(a: string, d: string, b: string, e: string)
    requires NoDash(d) && NoDash(e)
    requires a + "-" + d == b + "-" + e
    ensures a == b && d == e
  {
    var s := a + "-" + d;
    assert s[|a|] == '-' && s[|b|] == '-';
    assert forall k :: |a| < k < |s| ==> s[k] == d[k - |a| - 1] != '-';
    assert forall k :: |b| < k < |s| ==> s[k] == e[k - |b| - 1] != '-';
    assert |a| == |b|;
    assert a == s[..|a|] == b;
    assert d == s[|a| + 1..] == e;
  }

  lemma DigitsHaveNoDash(s: string)
    requires AllDigits(s)
    ensures NoDash(s)
  {
  }

  function Abs(i: int): nat { if i < 0 then -i else i }

  /** The key up to the size. */
  function SizePart(f: FileInfo): string { f.name + "-" + NatToString(f.size) }

  /** The key up to its last dash: a negative time adds the sign's dash. */
  function KeyHead(f: FileInfo): string
  {
    SizePart(f) + (if f.lastModified < 0 then "-" else "")
  }

  /** The key is its head, a dash, and the digits of the absolute time. */
  lemma KeySplit(f: FileInfo)
    ensures FileKey(f) == KeyHead(f) + "-" + NatToString(Abs(f.lastModified))
    ensures NoDash(NatToString(Abs(f.lastModified)))
  {
    var n := NatToString(Abs(f.lastModified));
    DigitsHaveNoDash(n);
    if f.lastModified < 0 {
      assert IntToString(f.lastModified) == "-" + n;
      assert FileKey(f) == SizePart(f) + "-" + ("-" + n);
      assert SizePart(f) + "-" + ("-" + n) == SizePart(f) + "-" + "-" + n;
    }
  }

  /** The head ends in a dash exactly for a negative time, and the size part
      is the head without that dash. */
  lemma HeadSign(f: FileInfo)
    ensures var h, p := KeyHead(f), SizePart(f);
      |h| == |p| + (if f.lastModified < 0 then 1 else 0) && |h| >= 1 &&
      (h[|h| - 1] == '-' <==> f.lastModified < 0) && h[..|p|] == p
  {
    var fs := NatToString(f.size);
    var p := SizePart(f);
    assert p[|p| - 1] == fs[|fs| - 1];
    assert IsDigit(fs[|fs| - 1]);
  }

  /** The key determines the name, the size and the modification time: two
      files get the same key only if all three agree. */
  lemma FileKeyInjective(f: FileInfo, g: FileInfo)
    requires FileKey(f) == FileKey(g)
    ensures f.name == g.name && f.size == g.size && f.lastModified == g.lastModified
  {
    KeySplit(f);
    KeySplit(g);
    SplitAtLastDash(KeyHead(f), NatToString(Abs(f.lastModified)), KeyHead(g), NatToString(Abs(g.lastModified)));
    HeadSign(f);
    HeadSign(g);
    assert (f.lastModified < 0) == (g.lastModified < 0);
    NatToStringInjective(Abs(f.lastModified), Abs(g.lastModified));
    assert |SizePart(f)| == |SizePart(g)|;
    assert SizePart(f) == KeyHead(f)[..|SizePart(f)|] == SizePart(g);
    DigitsHaveNoDash(NatToString(f.size));
    DigitsHaveNoDash(NatToString(g.size));
    SplitAtLastDash(f.name, NatToString(f.size), g.name, NatToString(g.size));
    NatToStringInjective(f.size, g.size);
  }

  /** A number-valued JSON field that may be `null` or missing. */
  datatype JsonNumber = Null | Absent | Number(value: int) {
    /** JavaScript truthiness: `null`, `undefined` and `0` are falsy. */
    predicate Truthy() { Number? && value != 0 }

    /** `field || d`. */
    function Or(d: int): (r: int)
      ensures Truthy() ==> r == value
      ensures !Truthy() ==> r == d
    {
      if Truthy() then value else d
    }
  }

  /** One detection of an image; only its label matters to the client's
      logic (confidence and box are display values). */
  datatype Detection = Detection(labelName: string)

  /** An item of `GET /images`. An empty URL string is a missing one;
      `detections` is None when the field is not an array. */
  datatype Image = Image(
    id: string,
    originalImageUrl: string,
    annotatedImageUrl: string,
    detections: Option<seq<Detection>>)

  /** `s.filter(keep)`: the elements that pass, in their original order. */
  function Filter<T(!new)>(s: seq<T>, keep: T -> bool): (r: seq<T>)
    ensures |r| <= |s|
    ensures forall x :: x in r <==> x in s && keep(x)
    decreases |s|
  {
    if s == [] then []
    else if keep(s[0]) then [s[0]] + Filter(s[1..], keep)
    else Filter(s[1..], keep)
  }

  /** Filtering a concatenation filters each part: the kept elements stay in order. */
  lemma {:induction false} FilterAppend<T(!new)>(a: seq<T>, b: seq<T>, keep: T -> bool)
    ensures Filter(a + b, keep) == Filter(a, keep) + Filter(b, keep)
    decreases |a|
  {
    if a != [] {
      assert (a + b)[1..] == a[1..] + b;
      FilterAppend(a[1..], b, keep);
    } else {
      assert a + b == b;
    }
  }

  /** Nothing that passes is dropped: filtering a sequence whose elements all pass changes nothing. */
  lemma {:induction false} FilterKeepsAll<T(!new)>(s: seq<T>, keep: T -> bool)
    requires forall i :: 0 <= i < |s| ==> keep(s[i])
    ensures Filter(s, keep) == s
    decreases |s|
  {
    if s != [] {
      FilterKeepsAll(s[1..], keep);
    }
  }

}
