/** The team inspector's "Members (CSV)" field: the members list is shown
    joined with ", " and every edit is parsed back by splitting on ',',
    trimming each part and dropping the empty ones. */
module Members {
  import Seqs

  /** The characters JavaScript's `String.prototype.trim` removes: the
      ECMAScript WhiteSpace and LineTerminator code points. */
  predicate IsSpace(c: char) {
    var u := c as int;
    u == 0x09 || u == 0x0A || u == 0x0B || u == 0x0C || u == 0x0D || u == 0x20
    || u == 0xA0 || u == 0x1680 || (0x2000 <= u <= 0x200A)
    || u == 0x2028 || u == 0x2029 || u == 0x202F || u == 0x205F
    || u == 0x3000 || u == 0xFEFF
  }

  /** Neither starts nor ends with a character `trim` removes. */
  predicate IsTrimmed(s: string) {
    s == [] || (!IsSpace(s[0]) && !IsSpace(s[|s| - 1]))
  }

  /** What one member may look like after the field is parsed. */
  predicate IsMember(m: string) {
    m != [] && IsTrimmed(m) && ',' !in m
  }

  /** `s.trimStart()`: drops the leading spaces and nothing else. */
  function TrimStart(s: string): (r: string)
    ensures |r| <= |s| && r == s[|s| - |r|..]
    ensures r == [] || !IsSpace(r[0])
    ensures forall i :: 0 <= i < |s| - |r| ==> IsSpace(s[i])
  {
    if s != [] && IsSpace(s[0]) then
      var r := TrimStart(s[1..]);
      assert s[1..][|s| - 1 - |r|..] == s[|s| - |r|..];
      assert forall i :: 1 <= i < |s| - |r| ==> s[i] == s[1..][i - 1];
      r
    else s
  }

  /** `s.trimEnd()`: drops the trailing spaces and nothing else. */
  function TrimEnd(s: string): (r: string)
    ensures |r| <= |s| && r == s[..|r|]
    ensures r == [] || !IsSpace(r[|r| - 1])
    ensures forall i :: |r| <= i < |s| ==> IsSpace(s[i])
  {
    if s != [] && IsSpace(s[|s| - 1]) then TrimEnd(s[..|s| - 1]) else s
  }

  /** `s.trim()`: the result is trimmed and no longer than `s`;
      `TrimCutsSpaces` says which stretch of `s` it is. */
  function Trim(s: string): (r: string)
    ensures IsTrimmed(r)
    ensures |r| <= |s|
  {
    TrimEnd(TrimStart(s))
  }

  /** `s[..i]` and `s[j..]` are all spaces. */
  predicate SpacesOutside(s: string, i: int, j: int) {
    && 0 <= i <= j <= |s|
    && (forall k :: 0 <= k < i ==> IsSpace(s[k]))
    && (forall k :: j <= k < |s| ==> IsSpace(s[k]))
  }

  /** `s.trim()` is the stretch of `s` left once the spaces at both ends are
      cut off, and only spaces are cut. */
  lemma TrimCutsSpaces(s: string)
    ensures exists i, j :: SpacesOutside(s, i, j) && Trim(s) == s[i..j]
  {
    var t := TrimStart(s);
    var r := TrimEnd(t);
    var i, j := |s| - |t|, |s| - |t| + |r|;
    assert Trim(s) == s[i..j] by {
      assert s[i..j] == s[i..][..|r|];
    }
    forall k | j <= k < |s| ensures IsSpace(s[k]) {
      assert s[k] == t[k - i] && |r| <= k - i < |t|;
    }
    assert SpacesOutside(s, i, j);
  }

  /** Trimming removes characters and adds none. */
  lemma TrimAddsNothing(s: string, c: char)
    requires c !in s
    ensures c !in Trim(s)
  {
    var t := TrimStart(s);
    assert t == s[|s| - |t|..];
    assert c !in t;
    assert Trim(s) == t[..|Trim(s)|];
  }

  /** Trimming a trimmed string changes nothing. */
  lemma TrimTrimmed(s: string)
    requires IsTrimmed(s)
    ensures Trim(s) == s
  {
  }

  /** Trimming is idempotent. */
  lemma TrimIdempotent(s: string)
    ensures Trim(Trim(s)) == Trim(s)
  {
    TrimTrimmed(Trim(s));
  }

  /** Leading spaces in front of a trimmed string are all that trim removes. */
  lemma {:induction false} TrimPadded(pad: string, s: string)
    requires forall i :: 0 <= i < |pad| ==> IsSpace(pad[i])
    requires IsTrimmed(s)
    ensures Trim(pad + s) == s
  {
    if pad == [] {
      assert pad + s == s;
    } else {
      assert (pad + s)[0] == pad[0] && (pad + s)[1..] == pad[1..] + s;
      TrimPadded(pad[1..], s);
    }
  }

  /** `s.split(sep)`: the pieces between separators, at least one, none
      holding the separator. */
  function Split(s: string, sep: char): (r: seq<string>)
    ensures |r| >= 1
    ensures forall i :: 0 <= i < |r| ==> sep !in r[i]
  {
    if s == [] then [[]]
    else
      var rest := Split(s[1..], sep);
      if s[0] == sep then [[]] + rest
      else [[s[0]] + rest[0]] + rest[1..]
  }

  /** `ms.join(sep)`. */
  function Join(ms: seq<string>, sep: string): string {
    if ms == [] then []
    else if |ms| == 1 then ms[0]
    else ms[0] + sep + Join(ms[1..], sep)
  }

  /** Splitting on a character and joining with it gives the text back. */
  lemma {:induction false} JoinSplit(s: string, sep: char)
    ensures Join(Split(s, sep), [sep]) == s
  {
    if s != [] {
      var rest := Split(s[1..], sep);
      JoinSplit(s[1..], sep);
      if s[0] == sep {
        assert Split(s, sep)[1..] == rest;
      } else {
        var r := Split(s, sep);
        assert r[1..] == rest[1..];
        if |rest| > 1 {
          assert rest == [rest[0]] + rest[1..];
          assert Join(rest, [sep]) == rest[0] + [sep] + Join(rest[1..], [sep]);
        }
        assert s == [s[0]] + s[1..];
      }
    }
  }

  /** A separator-free head is glued to the first piece of the tail. */
  lemma {:induction false} SplitHead(p: string, t: string, sep: char)
    requires sep !in p
    ensures Split(p + t, sep) == [p + Split(t, sep)[0]] + Split(t, sep)[1..]
  {
    var st := Split(t, sep);
    if p == [] {
      assert p + t == t;
      assert [] + st[0] == st[0];
      assert st == [st[0]] + st[1..];
    } else {
      assert (p + t)[0] == p[0] && (p + t)[1..] == p[1..] + t;
      SplitHead(p[1..], t, sep);
      assert [p[0]] + (p[1..] + Split(t, sep)[0]) == p + Split(t, sep)[0];
    }
  }

  /** A separator splits the text into the pieces before it and the pieces
      after it. */
  lemma {:induction false} SplitAppend(t: string, u: string, sep: char)
    ensures Split(t + [sep] + u, sep) == Split(t, sep) + Split(u, sep)
  {
    var x := t + [sep] + u;
    if t == [] {
      assert x == [sep] + u && x[1..] == u;
    } else {
      assert x[0] == t[0] && x[1..] == t[1..] + [sep] + u;
      SplitAppend(t[1..], u, sep);
      if t[0] != sep {
        GlueHead(t[0], Split(t[1..], sep), Split(u, sep));
      }
    }
  }

  /** Gluing a character to the first piece commutes with appending pieces. */
  lemma GlueHead(c: char, a: seq<string>, b: seq<string>)
    requires |a| >= 1
    ensures [[c] + (a + b)[0]] + (a + b)[1..] == [[c] + a[0]] + a[1..] + b
  {
    assert (a + b)[1..] == a[1..] + b;
  }

  /** The pieces `split(',')` makes of a list joined with ", ": the first
      member carries `pre`, every later one a single leading blank. */
  lemma {:induction false} SplitJoined(ms: seq<string>, pre: string)
    requires ms != [] && ',' !in pre
    requires forall i :: 0 <= i < |ms| ==> ',' !in ms[i]
    ensures var r := Split(pre + Join(ms, ", "), ',');
      && |r| == |ms|
      && r[0] == pre + ms[0]
      && forall i :: 1 <= i < |ms| ==> r[i] == " " + ms[i]
  {
    var head := pre + ms[0];
    if |ms| == 1 {
      SplitHead(head, [], ',');
      assert head + [] == head;
    } else {
      var tail := Join(ms[1..], ", ");
      var t := [','] + (" " + tail);
      assert pre + Join(ms, ", ") == head + t;
      SplitHead(head, t, ',');
      assert t[0] == ',' && t[1..] == " " + tail;
      var rest := Split(" " + tail, ',');
      assert Split(t, ',') == [[]] + rest;
      SplitJoined(ms[1..], " ");
      var r := Split(pre + Join(ms, ", "), ',');
      assert r == [head + []] + rest;
      forall i | 1 <= i < |ms| ensures r[i] == " " + ms[i] {
        assert r[i] == rest[i - 1] && ms[1..][i - 1] == ms[i];
      }
    }
  }

  /** `ps.map(s => s.trim())`: one trimmed piece per piece, in order. */
  function TrimEach(ps: seq<string>): (r: seq<string>)
    ensures |r| == |ps|
    ensures forall i :: 0 <= i < |ps| ==> r[i] == Trim(ps[i])
  {
    if ps == [] then [] else [Trim(ps[0])] + TrimEach(ps[1..])
  }

  /** Trimming pieces that hold no `c` gives trimmed pieces that hold no `c`. */
  lemma TrimEachClean(ps: seq<string>, c: char)
    requires forall i :: 0 <= i < |ps| ==> c !in ps[i]
    ensures forall m :: m in TrimEach(ps) ==> IsTrimmed(m) && c !in m
  {
    var parts := TrimEach(ps);
    forall m | m in parts ensures IsTrimmed(m) && c !in m {
      var i :| 0 <= i < |parts| && parts[i] == m;
      TrimAddsNothing(ps[i], c);
    }
  }

  /** The members field as the inspector shows it: `members.join(', ')`. */
  function FormatMembers(ms: seq<string>): string {
    Join(ms, ", ")
  }

  /** The members field as the inspector reads it back:
      `text.split(',').map(s => s.trim()).filter(Boolean)`. */
  function ParseMembers(text: string): seq<string> {
    Seqs.Filter(TrimEach(Split(text, ',')), (m: string) => m != [])
  }

  /** No member read back from the field is empty, padded with spaces, or
      holds a comma, whatever the text. */
  lemma ParseMembersWellFormed(text: string)
    ensures forall i :: 0 <= i < |ParseMembers(text)| ==> IsMember(ParseMembers(text)[i])
  {
    var pieces := Split(text, ',');
    TrimEachClean(pieces, ',');
    var ms := ParseMembers(text);
    assert forall i :: 0 <= i < |ms| ==> ms[i] in ms;
  }

  /** Splitting a shown list of well-formed members on ',' gives one piece
      per member, which trims back to that member. */
  lemma PiecesOfFormat(ms: seq<string>)
    requires ms != []
    requires forall i :: 0 <= i < |ms| ==> IsMember(ms[i])
    ensures var pieces := Split(FormatMembers(ms), ',');
      && |pieces| == |ms|
      && forall i :: 0 <= i < |ms| ==> Trim(pieces[i]) == ms[i]
  {
    var text := FormatMembers(ms);
    var pieces := Split(text, ',');
    SplitJoined(ms, []);
    assert [] + text == text;
    forall i | 0 <= i < |ms| ensures Trim(pieces[i]) == ms[i] {
      if i == 0 {
        assert pieces[0] == [] + ms[0] == ms[0];
        TrimTrimmed(ms[0]);
      } else {
        TrimPadded(" ", ms[i]);
      }
    }
  }

  /** Showing a list of well-formed members and reading the field back
      returns the same list, in the same order. */
  lemma ParseFormat(ms: seq<string>)
    requires forall i :: 0 <= i < |ms| ==> IsMember(ms[i])
    ensures ParseMembers(FormatMembers(ms)) == ms
  {
    if ms == [] {
      assert Split(FormatMembers(ms), ',') == [[]];
      assert TrimEach([[]]) == [Trim([])] + TrimEach([]);
    } else {
      PiecesOfFormat(ms);
      var parts := TrimEach(Split(FormatMembers(ms), ','));
      assert parts == ms;
      Seqs.FilterKeepsAll(ms, (m: string) => m != []);
    }
  }

  /** Text without the separator is a single piece. */
  lemma SplitWhole(s: string, sep: char)
    requires sep !in s
    ensures Split(s, sep) == [s]
  {
    SplitHead(s, [], sep);
    assert s + [] == s;
  }

  /** Trimming a run of spaces leaves nothing. */
  lemma TrimAllSpaces(pad: string)
    requires forall k :: 0 <= k < |pad| ==> IsSpace(pad[k])
    ensures Trim(pad) == []
  {
    TrimPadded(pad, []);
    assert pad + [] == pad;
  }

  /** Trimming the pieces of two lists is trimming each list. */
  lemma {:induction false} TrimEachAppend(a: seq<string>, b: seq<string>)
    ensures TrimEach(a + b) == TrimEach(a) + TrimEach(b)
  {
    if a == [] {
      assert a + b == b;
    } else {
      assert (a + b)[0] == a[0] && (a + b)[1..] == a[1..] + b;
      TrimEachAppend(a[1..], b);
    }
  }

  /** A trailing comma, with or without blanks after it, adds no member:
      "Eng, Ops, " reads back as "Eng, Ops". */
  lemma ParseTrailingComma(t: string, pad: string)
    requires forall k :: 0 <= k < |pad| ==> IsSpace(pad[k])
    ensures ParseMembers(t + "," + pad) == ParseMembers(t)
  {
    assert forall k :: 0 <= k < |pad| ==> pad[k] != ',';
    var pieces := Split(t, ',');
    SplitAppend(t, pad, ',');
    SplitWhole(pad, ',');
    TrimAllSpaces(pad);
    assert Split(t + "," + pad, ',') == pieces + [pad];
    var parts := TrimEach(pieces);
    TrimEachAppend(pieces, [pad]);
    assert TrimEach([pad]) == [[]];
    var keep := (m: string) => m != [];
    Seqs.FilterConcat(parts, [[]], keep);
    Seqs.FilterSingleton([], keep);
    assert Seqs.Filter(parts + [[]], keep) == Seqs.Filter(parts, keep) + [];
    assert Seqs.Filter(parts, keep) + [] == Seqs.Filter(parts, keep);
  }

  /** Re-showing a parsed field and parsing it again is stable. */
  lemma ParseFormatParse(text: string)
    ensures ParseMembers(FormatMembers(ParseMembers(text))) == ParseMembers(text)
  {
    ParseMembersWellFormed(text);
    ParseFormat(ParseMembers(text));
  }
}
