/** Python's string operations as the scripts use them: `str.split(',')`,
    `str.strip()`, `str.__lt__` and `sorted` on a set of strings. */
module Text {

  /** Python's `str.isspace()` for one character. */
  predicate IsSpace(c: char) {
    var n := c as int;
    (9 <= n <= 13) || (28 <= n <= 32) || n == 0x85 || n == 0xA0 || n == 0x1680
    || (0x2000 <= n <= 0x200A) || n == 0x2028 || n == 0x2029 || n == 0x202F
    || n == 0x205F || n == 0x3000
  }

  // ---------------------------------------------------------------- split

  /** Python's `s.split(sep)` for a one-character separator. */
  function Split(s: string, sep: char): (pieces: seq<string>)
    ensures |pieces| >= 1
    decreases |s|
  {
    if s == [] then [""]
    else
      var rest := Split(s[1..], sep);
      if s[0] == sep then [""] + rest
      else [[s[0]] + rest[0]] + rest[1..]
  }

  /** No piece holds the separator. */
  lemma {:induction false} SplitPieceHasNoSep(s: string, sep: char, i: nat)
    requires i < |Split(s, sep)|
    ensures sep !in Split(s, sep)[i]
    decreases |s|
  {
    if s != [] {
      var rest := Split(s[1..], sep);
      if s[0] == sep {
        if i > 0 {
          assert Split(s, sep)[i] == rest[i - 1];
          SplitPieceHasNoSep(s[1..], sep, i - 1);
        }
      } else if i == 0 {
        SplitPieceHasNoSep(s[1..], sep, 0);
        assert Split(s, sep)[0] == [s[0]] + rest[0];
      } else {
        assert Split(s, sep)[i] == rest[i];
        SplitPieceHasNoSep(s[1..], sep, i);
      }
    }
  }

  /** Python's `sep.join(pieces)`. */
  function Join(pieces: seq<string>, sep: char): string
    decreases |pieces|
  {
    if pieces == [] then ""
    else if |pieces| == 1 then pieces[0]
    else pieces[0] + [sep] + Join(pieces[1..], sep)
  }

  function Occurrences(s: string, c: char): nat {
    if s == [] then 0 else (if s[0] == c then 1 else 0) + Occurrences(s[1..], c)
  }

  /** Splitting loses nothing: joining the pieces gives the input back,
      and there is one more piece than separators. */
  lemma {:induction false} JoinSplit(s: string, sep: char)
    ensures Join(Split(s, sep), sep) == s
    ensures |Split(s, sep)| == Occurrences(s, sep) + 1
    decreases |s|
  {
    if s != [] {
      JoinSplit(s[1..], sep);
      var rest := Split(s[1..], sep);
      if s[0] == sep {
        assert ([""] + rest)[1..] == rest;
      } else {
        var p := [[s[0]] + rest[0]] + rest[1..];
        assert p[1..] == rest[1..];
        if |rest| == 1 {
          assert Join(rest, sep) == rest[0];
        } else {
          assert Join(rest, sep) == rest[0] + [sep] + Join(rest[1..], sep);
        }
      }
    }
  }

  // ---------------------------------------------------------------- strip

  /** How many whitespace characters `s` starts with. */
  function LeadingSpaces(s: string): (n: nat)
    ensures n <= |s|
  {
    if s != [] && IsSpace(s[0]) then 1 + LeadingSpaces(s[1..]) else 0
  }

  /** How many whitespace characters `s` ends with. */
  function TrailingSpaces(s: string): (n: nat)
    ensures n <= |s|
  {
    if s != [] && IsSpace(s[|s| - 1]) then 1 + TrailingSpaces(s[..|s| - 1]) else 0
  }

  lemma {:induction false} LeadingSpacesAreSpace(s: string, i: nat)
    requires i < LeadingSpaces(s)
    ensures IsSpace(s[i])
    decreases |s|
  {
    if i > 0 {
      LeadingSpacesAreSpace(s[1..], i - 1);
    }
  }

  lemma {:induction false} LeadingSpacesStop(s: string)
    requires LeadingSpaces(s) < |s|
    ensures !IsSpace(s[LeadingSpaces(s)])
    decreases |s|
  {
    if s != [] && IsSpace(s[0]) {
      LeadingSpacesStop(s[1..]);
    }
  }

  lemma {:induction false} TrailingSpacesAreSpace(s: string, i: nat)
    requires |s| - TrailingSpaces(s) <= i < |s|
    ensures IsSpace(s[i])
    decreases |s|
  {
    if i < |s| - 1 {
      TrailingSpacesAreSpace(s[..|s| - 1], i);
    }
  }

  lemma {:induction false} TrailingSpacesStop(s: string)
    requires TrailingSpaces(s) < |s|
    ensures !IsSpace(s[|s| - 1 - TrailingSpaces(s)])
    decreases |s|
  {
    if s != [] && IsSpace(s[|s| - 1]) {
      TrailingSpacesStop(s[..|s| - 1]);
    }
  }

  ghost predicate AllSpace(s: string) {
    forall i :: 0 <= i < |s| ==> IsSpace(s[i])
  }

  /** Python's `s.strip()`: `s` without its leading and trailing whitespace. */
  function Strip(s: string): (r: string)
    ensures |r| <= |s|
  {
    var k := LeadingSpaces(s);
    s[k..|s| - TrailingSpaces(s[k..])]
  }

  /** The stripped text is the infix of `s` that has only whitespace around
      it and no whitespace at either end; it is empty exactly when `s` is all
      whitespace. */
  lemma StripIsInfix(s: string)
    ensures var r := Strip(s); var k := LeadingSpaces(s);
      k + |r| <= |s| && r == s[k..k + |r|]
      && (forall i :: 0 <= i < k ==> IsSpace(s[i]))
      && (forall i :: k + |r| <= i < |s| ==> IsSpace(s[i]))
      && (r != [] ==> !IsSpace(r[0]) && !IsSpace(r[|r| - 1]))
    ensures Strip(s) == "" <==> AllSpace(s)
  {
    var k := LeadingSpaces(s);
    var t := s[k..];
    var n := TrailingSpaces(t);
    var r := Strip(s);
    assert r == t[..|t| - n];
    forall i | 0 <= i < k ensures IsSpace(s[i]) {
      LeadingSpacesAreSpace(s, i);
    }
    forall i | k + |r| <= i < |s| ensures IsSpace(s[i]) {
      TrailingSpacesAreSpace(t, i - k);
      assert s[i] == t[i - k];
    }
    if r != [] {
      LeadingSpacesStop(s);
      TrailingSpacesStop(t);
      assert r[0] == s[k];
      assert r[|r| - 1] == t[|t| - 1 - n];
      assert !AllSpace(s) by { assert !IsSpace(s[k]); }
    } else {
      assert AllSpace(s);
    }
  }

  /** A character the stripped text holds comes from the input. */
  lemma StripKeeps(s: string, c: char)
    requires c in Strip(s)
    ensures c in s
  {
    StripIsInfix(s);
    var r := Strip(s);
    var k := LeadingSpaces(s);
    var i :| 0 <= i < |r| && r[i] == c;
    assert s[k + i] == c;
  }

  // -------------------------------------------------------- managed accounts

  /** The stripped pieces that are not blank, in order. */
  function StrippedNonEmpty(pieces: seq<string>): (r: seq<string>)
    ensures |r| <= |pieces|
  {
    if pieces == [] then []
    else
      var a := Strip(pieces[0]);
      (if a != "" then [a] else []) + StrippedNonEmpty(pieces[1..])
  }

  /** Every account is a stripped piece. */
  lemma {:induction false} StrippedNonEmptySound(pieces: seq<string>, i: nat)
    requires i < |StrippedNonEmpty(pieces)|
    ensures StrippedNonEmpty(pieces)[i] != ""
    ensures exists j :: 0 <= j < |pieces| && StrippedNonEmpty(pieces)[i] == Strip(pieces[j])
    decreases |pieces|
  {
    var a := Strip(pieces[0]);
    var rest := StrippedNonEmpty(pieces[1..]);
    if a != "" && i == 0 {
      assert StrippedNonEmpty(pieces)[0] == Strip(pieces[0]);
    } else {
      var i' := if a != "" then i - 1 else i;
      assert StrippedNonEmpty(pieces)[i] == rest[i'];
      StrippedNonEmptySound(pieces[1..], i');
      var j :| 0 <= j < |pieces| - 1 && rest[i'] == Strip(pieces[1..][j]);
      assert rest[i'] == Strip(pieces[j + 1]);
    }
  }

  /** The comprehension keeps the pieces' order: it distributes over
      concatenation. */
  lemma {:induction false} StrippedNonEmptyAppend(a: seq<string>, b: seq<string>)
    ensures StrippedNonEmpty(a + b) == StrippedNonEmpty(a) + StrippedNonEmpty(b)
    decreases |a|
  {
    if a != [] {
      assert (a + b)[0] == a[0] && (a + b)[1..] == a[1..] + b;
      StrippedNonEmptyAppend(a[1..], b);
    } else {
      assert a + b == b;
    }
  }

  /** Every piece that is not blank is kept, stripped. */
  lemma {:induction false} StrippedNonEmptyKeeps(pieces: seq<string>, j: nat)
    requires j < |pieces| && Strip(pieces[j]) != ""
    ensures Strip(pieces[j]) in StrippedNonEmpty(pieces)
    decreases |pieces|
  {
    if j > 0 {
      StrippedNonEmptyKeeps(pieces[1..], j - 1);
    }
  }

  /** An account name as the parse yields it: not empty, no whitespace at
      either end, no comma. */
  predicate IsAccountName(a: string) {
    a != "" && !IsSpace(a[0]) && !IsSpace(a[|a| - 1]) && ',' !in a
  }

  lemma ParsedIsAccountName(s: string, i: nat)
    requires i < |StrippedNonEmpty(Split(s, ','))|
    ensures IsAccountName(StrippedNonEmpty(Split(s, ','))[i])
  {
    var pieces := Split(s, ',');
    var a := StrippedNonEmpty(pieces)[i];
    StrippedNonEmptySound(pieces, i);
    var j :| 0 <= j < |pieces| && a == Strip(pieces[j]);
    SplitPieceHasNoSep(s, ',', j);
    StripIsInfix(pieces[j]);
    if ',' in a { StripKeeps(pieces[j], ','); }
  }

  /** The `managedAccounts` callback's parse of its comma-separated account
      list: every account is a proper account name, and there are no more
      accounts than commas plus one. */
  function ParseAccountsList(s: string): (accounts: seq<string>)
    ensures forall i :: 0 <= i < |accounts| ==> IsAccountName(accounts[i])
    ensures |accounts| <= Occurrences(s, ',') + 1
  {
    var pieces := Split(s, ',');
    JoinSplit(s, ',');
    var r := StrippedNonEmpty(pieces);
    forall i | 0 <= i < |r| ensures IsAccountName(r[i]) {
      ParsedIsAccountName(s, i);
    }
    r
  }

  /** Every non-blank comma-separated piece of the input is an account. */
  lemma ParseAccountsListComplete(s: string, j: nat)
    requires j < |Split(s, ',')| && Strip(Split(s, ',')[j]) != ""
    ensures Strip(Split(s, ',')[j]) in ParseAccountsList(s)
  {
    StrippedNonEmptyKeeps(Split(s, ','), j);
  }

  /** Appending a comma and a further piece appends that piece's account,
      if any, to the parse of the prefix: accounts keep their input order. */
  lemma {:induction false} ParseAccountsListSnoc(s: string, t: string)
    requires ',' !in t
    ensures ParseAccountsList(s + [','] + t) == ParseAccountsList(s) + (if Strip(t) != "" then [Strip(t)] else [])
  {
    SplitSnoc(s, t);
    StrippedNonEmptyAppend(Split(s, ','), [t]);
  }

  lemma {:induction false} SplitSnoc(s: string, t: string)
    requires ',' !in t
    ensures Split(s + [','] + t, ',') == Split(s, ',') + [t]
    decreases |s|
  {
    if s == [] {
      SplitNoSep(t);
      assert [] + [','] + t == [','] + t;
    } else {
      assert (s + [','] + t)[1..] == s[1..] + [','] + t;
      SplitSnoc(s[1..], t);
    }
  }

  lemma {:induction false} SplitNoSep(t: string)
    requires ',' !in t
    ensures Split(t, ',') == [t]
    decreases |t|
  {
    if t != [] {
      SplitNoSep(t[1..]);
      assert [t[0]] + t[1..] == t;
    }
  }

  /** An empty list has no accounts, and a trailing comma adds none. */
  lemma ParseAccountsListBlank(s: string)
    ensures ParseAccountsList("") == []
    ensures ParseAccountsList(s + [',']) == ParseAccountsList(s)
  {
    assert s + [','] == s + [','] + "";
    ParseAccountsListSnoc(s, "");
    SplitNoSep("");
  }

  // ------------------------------------------------------------- ordering

  /** Python's `a < b` on strings: lexicographic by code point. */
  predicate Less(a: string, b: string)
    decreases |a|
  {
    if b == [] then false
    else if a == [] then true
    else if a[0] != b[0] then a[0] < b[0]
    else Less(a[1..], b[1..])
  }

  lemma {:induction false} LessIrreflexive(a: string)
    ensures !Less(a, a)
    decreases |a|
  {
    if a != [] {
      LessIrreflexive(a[1..]);
    }
  }

  lemma {:induction false} LessTransitive(a: string, b: string, c: string)
    requires Less(a, b) && Less(b, c)
    ensures Less(a, c)
    decreases |a|
  {
    if a != [] && a[0] == b[0] && b[0] == c[0] {
      LessTransitive(a[1..], b[1..], c[1..]);
    }
  }

  lemma {:induction false} LessTotal(a: string, b: string)
    requires a != b
    ensures Less(a, b) || Less(b, a)
    decreases |a|
  {
    if a != [] && b != [] && a[0] == b[0] {
      assert a == [a[0]] + a[1..] && b == [b[0]] + b[1..];
      LessTotal(a[1..], b[1..]);
    }
  }

  lemma LessAsymmetric(a: string, b: string)
    requires Less(a, b)
    ensures !Less(b, a)
  {
    if Less(b, a) {
      LessTransitive(a, b, a);
      LessIrreflexive(a);
    }
  }

  /** The set of a list's elements. */
  function Elems(r: seq<string>): (e: set<string>)
    ensures forall x :: x in e <==> x in r
  {
    set x | x in r
  }

  ghost predicate StrictlyAscending(r: seq<string>) {
    forall i, j :: 0 <= i < j < |r| ==> Less(r[i], r[j])
  }

  /** Inserts `k` into the ascending `r`, keeping it ascending. */
  function InsertSorted(r: seq<string>, k: string): (r': seq<string>)
    requires StrictlyAscending(r)
    ensures StrictlyAscending(r')
    ensures Elems(r') == Elems(r) + {k}
    ensures |r'| == if k in r then |r| else |r| + 1
    decreases |r|
  {
    if r == [] then [k]
    else if k == r[0] then r
    else if Less(k, r[0]) then
      assert forall j :: 0 <= j < |r| ==> Less(k, r[j]) by {
        forall j | 0 < j < |r| ensures Less(k, r[j]) { LessTransitive(k, r[0], r[j]); }
      }
      assert k !in r by { forall j | 0 <= j < |r| ensures r[j] != k { LessIrreflexive(k); } }
      [k] + r
    else
      LessTotal(k, r[0]);
      var tail := InsertSorted(r[1..], k);
      assert forall x :: x in tail ==> Less(r[0], x) by {
        forall x | x in tail ensures Less(r[0], x) {
          assert x in Elems(tail);
          if x != k {
            assert x in Elems(r[1..]);
            var j :| 0 <= j < |r[1..]| && r[1..][j] == x;
            assert r[j + 1] == x;
          }
        }
      }
      assert r == [r[0]] + r[1..];
      assert (k in r) == (k in r[1..]);
      [r[0]] + tail
  }

  /** Python's `sorted(keys)` for a set of strings: loops over the set,
      inserting each key into an ascending list. */
  method SortedList(keys: set<string>) returns (r: seq<string>)
    ensures StrictlyAscending(r)
    ensures Elems(r) == keys
    ensures |r| == |keys|
  {
    r := [];
    var pending := keys;
    while pending != {}
      invariant StrictlyAscending(r)
      invariant Elems(r) + pending == keys
      invariant Elems(r) !! pending
      invariant |r| + |pending| == |keys|
      decreases |pending|
    {
      var k :| k in pending;
      r := InsertSorted(r, k);
      pending := pending - {k};
    }
  }

  /** Two ascending lists with the same elements are equal. */
  lemma {:induction false} AscendingUnique(a: seq<string>, b: seq<string>)
    requires StrictlyAscending(a) && StrictlyAscending(b)
    requires Elems(a) == Elems(b)
    ensures a == b
    decreases |a|
  {
    if a == [] {
      AscendingSize(b);
      assert Elems(a) == {};
    } else {
      assert a[0] in a;
      assert b != [] by { assert a[0] in Elems(a); }
      assert b[0] in b;
      assert a[0] == b[0] by {
        assert a[0] in Elems(b);
        assert b[0] in Elems(a);
        if a[0] != b[0] {
          var i :| 0 <= i < |a| && a[i] == b[0];
          var j :| 0 <= j < |b| && b[j] == a[0];
          assert Less(a[0], b[0]);
          assert Less(b[0], a[0]);
          LessAsymmetric(a[0], b[0]);
        }
      }
      forall x | x in a[1..] ensures x in b[1..] {
        var i :| 0 <= i < |a[1..]| && a[1..][i] == x;
        assert a[i + 1] == x;
        assert x in a;
        assert x in b;
        var j :| 0 <= j < |b| && b[j] == x;
        if j == 0 { LessIrreflexive(x); }
        assert j > 0;
        assert b[1..][j - 1] == x;
      }
      forall x | x in b[1..] ensures x in a[1..] {
        var j :| 0 <= j < |b[1..]| && b[1..][j] == x;
        assert b[j + 1] == x;
        assert x in b;
        assert x in a;
        var i :| 0 <= i < |a| && a[i] == x;
        if i == 0 { LessIrreflexive(x); }
        assert i > 0;
        assert a[1..][i - 1] == x;
      }
      assert Elems(a[1..]) == Elems(b[1..]);
      AscendingUnique(a[1..], b[1..]);
    }
  }

  lemma {:induction false} AscendingExists(s: set<string>)
    ensures exists r :: StrictlyAscending(r) && Elems(r) == s
    decreases |s|
  {
    if s == {} {
      assert StrictlyAscending([]) && Elems([]) == s;
    } else {
      var k :| k in s;
      AscendingExists(s - {k});
      var r :| StrictlyAscending(r) && Elems(r) == s - {k};
      var r' := InsertSorted(r, k);
      assert StrictlyAscending(r') && Elems(r') == s;
    }
  }

  /** The ascending list of a set's elements: what `sorted` returns. */
  ghost function Sorted(s: set<string>): (r: seq<string>)
    ensures StrictlyAscending(r) && Elems(r) == s
  {
    AscendingExists(s);
    var r :| StrictlyAscending(r) && Elems(r) == s;
    r
  }

  /** An ascending list has no repeats, so it is as long as its set. */
  lemma {:induction false} AscendingSize(r: seq<string>)
    requires StrictlyAscending(r)
    ensures |Elems(r)| == |r|
    decreases |r|
  {
    if r != [] {
      assert StrictlyAscending(r[1..]) by {
        forall i, j | 0 <= i < j < |r| - 1 ensures Less(r[1..][i], r[1..][j]) {
          assert r[1..][i] == r[i + 1] && r[1..][j] == r[j + 1];
        }
      }
      AscendingSize(r[1..]);
      assert r[0] !in r[1..] by {
        forall j | 0 <= j < |r| - 1 ensures r[1..][j] != r[0] {
          assert Less(r[0], r[j + 1]);
          if r[j + 1] == r[0] { LessIrreflexive(r[0]); }
        }
      }
      assert r == [r[0]] + r[1..];
      assert Elems(r) == {r[0]} + Elems(r[1..]);
    }
  }

  /** `sorted` of a set is as long as the set. */
  lemma SortedSize(s: set<string>)
    ensures |Sorted(s)| == |s|
  {
    AscendingSize(Sorted(s));
  }
}
