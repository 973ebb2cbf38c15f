/** Canonical domain names and the lists that configurations make of them. */
module Names {
  import opened Dns

  function Split(s: string, sep: char): (r: seq<string>)
    ensures r != []
  {
    if s == "" then [""]
    else
      var rest := Split(s[1..], sep);
      if s[0] == sep then [""] + rest else [[s[0]] + rest[0]] + rest[1..]
  }

  predicate IsLabelChar(c: char) { 'a' <= c <= 'z' || '0' <= c <= '9' || c == '-' }

  predicate IsLabel(l: string) {
    && 0 < |l| <= 63
    && (forall i :: 0 <= i < |l| ==> IsLabelChar(l[i]))
    && l[0] != '-' && l[|l| - 1] != '-'
    && (|l| >= 4 && l[2] == '-' && l[3] == '-' ==> l[..4] == "xn--")
  }

  /** A name that normalization leaves as it is. */
  predicate IsDomain(s: string) {
    |s| <= 253 && forall l :: l in Split(s, '.') ==> IsLabel(l)
  }

  predicate IsSuffix(s: Suffix) { s == Root || IsDomain(s) }

  /** Parsing of text that is already lower-case ASCII without spaces. */
  function ParseSuffix(input: string): Option<Suffix> {
    var core := if input != "" && input[|input| - 1] == '.' then input[..|input| - 1] else input;
    if core == "" then Some(Root) else if IsDomain(core) then Some(core) else None
  }

  function Display(d: Suffix): string { if d == Root then "." else d }

  /** Every character of a text is a separator or is in one of its parts. */
  lemma {:induction false} SplitParts(s: string, sep: char)
    ensures forall i :: 0 <= i < |s| && s[i] != sep ==> exists l :: l in Split(s, sep) && s[i] in l
    ensures s != "" && s[0] == sep ==> "" in Split(s, sep)
    ensures s != "" && s[|s| - 1] == sep ==> "" in Split(s, sep)
    ensures s == "" ==> "" in Split(s, sep)
  {
    if s != "" {
      var rest, all := Split(s[1..], sep), Split(s, sep);
      SplitParts(s[1..], sep);
      forall i | 0 <= i < |s| && s[i] != sep
        ensures exists l :: l in all && s[i] in l
      {
        if i == 0 {
          assert s[0] in all[0];
        } else {
          assert s[i] == s[1..][i - 1];
          var l :| l in rest && s[i] in l;
          PartStays(s, sep, l, s[i]);
        }
      }
      if s[|s| - 1] == sep && |s| > 1 {
        assert s[1..][|s| - 2] == sep;
        LastEmptyStays(s, sep);
      }
    }
  }

  lemma PartStays(s: string, sep: char, l: string, c: char)
    requires s != "" && l in Split(s[1..], sep) && c in l
    ensures exists m :: m in Split(s, sep) && c in m
  {
    var rest, all := Split(s[1..], sep), Split(s, sep);
    var k :| 0 <= k < |rest| && rest[k] == l;
    if s[0] == sep {
      assert all[k + 1] == l;
    } else if k == 0 {
      assert c in all[0];
    } else {
      assert all[k] == l;
    }
  }

  /** Text that ends in a separator has an empty last part. */
  lemma {:induction false} LastEmptyStays(s: string, sep: char)
    requires s != "" && s[|s| - 1] == sep
    ensures var all := Split(s, sep); all[|all| - 1] == "" && |all| >= 2
  {
    if |s| > 1 {
      assert s[1..][|s| - 2] == sep;
      LastEmptyStays(s[1..], sep);
    } else {
      assert Split(s[1..], sep) == [""];
    }
  }

  /** A domain has no empty part and none of the characters that the text
      formats use as marks. */
  lemma DomainShape(s: string)
    requires IsDomain(s)
    ensures s != "" && s[0] != '.' && s[|s| - 1] != '.'
    ensures forall i :: 0 <= i < |s| ==> s[i] == '.' || IsLabelChar(s[i])
  {
    SplitParts(s, '.');
    forall i | 0 <= i < |s| ensures s[i] == '.' || IsLabelChar(s[i]) {
      if s[i] != '.' {
        var l :| l in Split(s, '.') && s[i] in l;
        assert IsLabel(l);
      }
    }
    assert !IsLabel("");
  }

  /** Parsing undoes the display of every canonical name, and the root has a
      display of its own. */
  lemma ParseDisplay(d: Suffix)
    requires IsSuffix(d)
    ensures ParseSuffix(Display(d)) == Some(d)
    ensures Display(d) != "" && Display(d)[0] != '~'
    ensures d != Root ==> Display(d) != Display(Root) && Display(d)[0] != '.'
  {
    if d != Root {
      DomainShape(d);
    }
  }

  /** Exactly the canonical names are parsed, with or without a dot at the end. */
  lemma ParseSuffixIff(input: string, d: Suffix)
    ensures ParseSuffix(input) == Some(d) <==> IsSuffix(d) && (input == d || input == d + ".")
  {
    if IsDomain(d) {
      DomainShape(d);
      assert (d + ".")[..|d|] == d;
    }
    if input != "" && input[|input| - 1] == '.' {
      assert input == input[..|input| - 1] + ".";
    }
  }

  // ----- lists

  predicate NoDuplicates<T(==)>(s: seq<T>) {
    forall i, j :: 0 <= i < j < |s| ==> s[i] != s[j]
  }

  /** The elements that are not in `out`, in order. */
  function NotIn<T(==)>(s: seq<T>, out: seq<T>): seq<T> {
    if s == [] then []
    else
      var before, last := NotIn(s[..|s| - 1], out), s[|s| - 1];
      if last in out then before else before + [last]
  }

  lemma {:induction false} NotInMembers<T(!new)>(s: seq<T>, out: seq<T>)
    ensures forall x :: x in NotIn(s, out) <==> x in s && x !in out
    ensures NoDuplicates(s) ==> NoDuplicates(NotIn(s, out))
  {
    if s != [] {
      var init := s[..|s| - 1];
      NotInMembers(init, out);
      assert s == init + [s[|s| - 1]];
      if NoDuplicates(s) {
        assert forall i :: 0 <= i < |init| ==> init[i] == s[i];
        assert s[|s| - 1] !in init;
      }
    }
  }
}
