/** String operations the response texts are built from: `Array.prototype.join` and substring occurrence. */
module Text {

  /** `parts.join(sep)`. */
  function Join(parts: seq<string>, sep: string): string {
    if |parts| == 0 then ""
    else if |parts| == 1 then parts[0]
    else parts[0] + sep + Join(parts[1..], sep)
  }

  /** `sub` appears in `s` starting at index `i`. */
  predicate OccursAt(sub: string, s: string, i: int) {
    0 <= i && i + |sub| <= |s| && s[i..i + |sub|] == sub
  }

  /** `sub` appears somewhere inside `s`. */
  ghost predicate Occurs(sub: string, s: string) {
    exists i :: OccursAt(sub, s, i)
  }

  lemma OccursBetween(pre: string, sub: string, post: string)
    ensures Occurs(sub, pre + sub + post)
  {
    var s := pre + sub + post;
    assert s[|pre|..|pre| + |sub|] == sub;
    assert OccursAt(sub, s, |pre|);
  }

  lemma OccursAfter(pre: string, sub: string, s: string)
    requires Occurs(sub, s)
    ensures Occurs(sub, pre + s)
  {
    var i :| OccursAt(sub, s, i);
    assert (pre + s)[|pre| + i..|pre| + i + |sub|] == s[i..i + |sub|];
    assert OccursAt(sub, pre + s, |pre| + i);
  }

  /** Each value interpolated into a two-hole template string appears in the result. */
  lemma OccursInTemplate2(p0: string, x: string, p1: string, y: string, p2: string)
    ensures Occurs(x, p0 + x + p1 + y + p2)
    ensures Occurs(y, p0 + x + p1 + y + p2)
  {
    OccursBetween(p0, x, p1 + y + p2);
    assert p0 + x + (p1 + y + p2) == p0 + x + p1 + y + p2;
    OccursBetween(p0 + x + p1, y, p2);
  }

  /** Each value interpolated into a three-hole template string appears in the result. */
  lemma OccursInTemplate3(p0: string, x: string, p1: string, y: string, p2: string, z: string, p3: string)
    ensures Occurs(x, p0 + x + p1 + y + p2 + z + p3)
    ensures Occurs(y, p0 + x + p1 + y + p2 + z + p3)
    ensures Occurs(z, p0 + x + p1 + y + p2 + z + p3)
  {
    OccursInTemplate2(p0, x, p1, y, p2 + z + p3);
    assert p0 + x + p1 + y + (p2 + z + p3) == p0 + x + p1 + y + p2 + z + p3;
    OccursBetween(p0 + x + p1 + y + p2, z, p3);
  }

  /** Every joined part appears in the joined string. */
  lemma {:induction false} JoinContainsParts(parts: seq<string>, sep: string)
    ensures forall i :: 0 <= i < |parts| ==> Occurs(parts[i], Join(parts, sep))
  {
    if |parts| == 1 {
      OccursBetween("", parts[0], "");
      assert "" + parts[0] + "" == parts[0];
    } else if |parts| > 1 {
      var rest := Join(parts[1..], sep);
      JoinContainsParts(parts[1..], sep);
      forall i | 0 <= i < |parts|
        ensures Occurs(parts[i], Join(parts, sep))
      {
        if i == 0 {
          OccursBetween("", parts[0], sep + rest);
          assert "" + parts[0] + (sep + rest) == Join(parts, sep);
        } else {
          assert parts[i] == parts[1..][i - 1];
          OccursAfter(parts[0] + sep, parts[i], rest);
        }
      }
    }
  }

  /** With a non-empty separator, a join is empty only for no parts or one empty part. */
  lemma JoinEmpty(parts: seq<string>, sep: string)
    requires sep != ""
    ensures Join(parts, sep) == "" <==> |parts| == 0 || (|parts| == 1 && parts[0] == "")
  {
    if |parts| > 1 {
      assert |Join(parts, sep)| >= |sep|;
    }
  }
}
