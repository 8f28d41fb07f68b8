/** ASCII case and space, and splitting text at a separator character and joining it again. */
module Texts {
  function Lower(c: char): char {
    if 'A' <= c <= 'Z' then (c as int + 32) as char else c
  }

  function LowerAll(s: string): string {
    seq(|s|, i requires 0 <= i < |s| => Lower(s[i]))
  }

  /** s begins with a word, each letter in lower or in upper case. */
  predicate InAnyCase(s: string, lower: string, upper: string) {
    |upper| == |lower| <= |s| && forall i :: 0 <= i < |lower| ==> s[i] == lower[i] || s[i] == upper[i]
  }

  lemma {:induction false} SameButCase(s: string, name: string, lower: string, upper: string)
    requires |s| == |name| == |lower| == |upper|
    requires forall i :: 0 <= i < |lower| ==> 'a' <= lower[i] <= 'z' || lower[i] == '-'
    requires forall i :: 0 <= i < |lower| ==>
               upper[i] == (if lower[i] == '-' then '-' else (lower[i] as int - 32) as char)
    requires forall i :: 0 <= i < |lower| ==> name[i] == lower[i] || name[i] == upper[i]
    ensures LowerAll(s) == LowerAll(name) <==> InAnyCase(s, lower, upper)
  {
    assert forall i :: 0 <= i < |s| ==> LowerAll(name)[i] == lower[i];
    assert forall i :: 0 <= i < |s| ==> (LowerAll(s)[i] == lower[i] <==> s[i] == lower[i] || s[i] == upper[i]);
    if InAnyCase(s, lower, upper) {
      assert LowerAll(s) == LowerAll(name);
    }
  }

  predicate IsSpace(c: char) {
    c == ' ' || '\t' <= c <= '\r'
  }

  /** The position of the first separator, or the length of s. */
  function Cut(s: string, sep: char): (k: nat)
    ensures k <= |s| && sep !in s[..k] && (k < |s| ==> s[k] == sep)
  {
    if s == "" || s[0] == sep then 0 else 1 + Cut(s[1..], sep)
  }

  /** All that stands between separators, empty pieces included. */
  function Fields(s: string, sep: char): (fields: seq<string>)
    ensures |fields| > 0
    decreases |s|
  {
    var k := Cut(s, sep);
    if k == |s| then [s] else [s[..k]] + Fields(s[k + 1..], sep)
  }

  function Join(fields: seq<string>, sep: char): string {
    if fields == [] then ""
    else if |fields| == 1 then fields[0]
    else fields[0] + [sep] + Join(fields[1..], sep)
  }

  lemma {:induction false} CutIs(s: string, sep: char, k: nat)
    requires k < |s| && s[k] == sep && sep !in s[..k]
    ensures Cut(s, sep) == k
    decreases k
  {
    if k > 0 {
      assert s[0] in s[..k] && s[1..][..k - 1] == s[1..k];
      assert forall c :: c in s[1..k] ==> c in s[..k];
      CutIs(s[1..], sep, k - 1);
    }
  }

  lemma JoinCons(p: string, fields: seq<string>, sep: char)
    requires fields != []
    ensures Join([p] + fields, sep) == p + [sep] + Join(fields, sep)
  {
    assert ([p] + fields)[1..] == fields;
  }

  lemma FieldsCons(p: string, t: string, sep: char)
    requires sep !in p
    ensures Fields(p + [sep] + t, sep) == [p] + Fields(t, sep)
  {
    var s := p + [sep] + t;
    CutIs(s, sep, |p|);
    assert s[..|p|] == p && s[|p| + 1..] == t;
  }

  lemma CutAt(s: string, sep: char, k: nat)
    requires k < |s| && s[k] == sep
    ensures s == s[..k] + [sep] + s[k + 1..]
  {
  }

  lemma FieldsStep(s: string, sep: char, k: nat, rest: string)
    requires k == Cut(s, sep) < |s| && rest == s[k + 1..]
    ensures Fields(s, sep) == [s[..k]] + Fields(rest, sep)
  {
  }

  /** Joining the fields of a text gives the text. */
  lemma {:induction false} JoinFields(s: string, sep: char)
    ensures Join(Fields(s, sep), sep) == s
    decreases |s|
  {
    var k := Cut(s, sep);
    if k < |s| {
      var rest := s[k + 1..];
      JoinFields(rest, sep);
      FieldsStep(s, sep, k, rest);
      JoinCons(s[..k], Fields(rest, sep), sep);
      CutAt(s, sep, k);
    }
  }

  /** And the fields of joined pieces are the pieces, if none holds the separator. */
  lemma {:induction false} FieldsOfJoin(fields: seq<string>, sep: char)
    requires fields != [] && forall i :: 0 <= i < |fields| ==> sep !in fields[i]
    ensures Fields(Join(fields, sep), sep) == fields
    decreases |fields|
  {
    if |fields| == 1 {
      assert Cut(fields[0], sep) == |fields[0]|;
    } else {
      FieldsOfJoin(fields[1..], sep);
      FieldsCons(fields[0], Join(fields[1..], sep), sep);
    }
  }

  lemma {:induction false} JoinAppend(a: seq<string>, b: seq<string>, sep: char)
    requires a != [] && b != []
    ensures Join(a + b, sep) == Join(a, sep) + [sep] + Join(b, sep)
    decreases |a|
  {
    if |a| == 1 {
      assert (a + b)[1..] == b;
    } else {
      JoinAppend(a[1..], b, sep);
      assert (a + b)[1..] == a[1..] + b;
    }
  }
}
