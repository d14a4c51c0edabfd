/**
 * Parameter splitting for OperServ OVERRIDE (modules/operserv/override.c).
 * The parameter text of the overridden command is cut into at most
 * `maxparc` parameters: the first maxparc - 1 are space-separated words,
 * and the last holds the whole rest of the text with its leading and
 * trailing spaces removed. The unused slots of the fixed parameter vector
 * are then cleared to NULL.
 *
 * NULL is None; a C string is a `string` value. The parameter vector is an
 * array of Option<string>, updated in place as the C code does.
 */
module Override {
  import opened Wrappers
  import opened CString

  /** The delimiter set of strtok(p, " "). */
  const SPACE: set<char> := {' '}

  /** The size of the newparv vector filled by os_cmd_override. */
  const NEWPARV_SIZE: nat := 20

  // ---------------------------------------------------------------------
  // Reference definition: the words of a text
  // ---------------------------------------------------------------------

  /** Scanning s from index i one character at a time, with `cur` the part
      of a word read so far: a space ends the current word (if any), any
      other character extends it, and the end of the text ends it too. */
  function Split(s: string, i: nat, cur: string): seq<string>
    requires i <= |s|
    decreases |s| - i
  {
    if i == |s| then (if cur == [] then [] else [cur])
    else if s[i] == ' ' then (if cur == [] then [] else [cur]) + Split(s, i + 1, [])
    else Split(s, i + 1, cur + [s[i]])
  }

  /** The maximal runs of non-space characters of `t`, in order. */
  function Words(t: string): seq<string>
  {
    Split(t, 0, [])
  }

  /** All characters of t[i..j] are spaces. */
  predicate Blank(t: string, i: nat, j: nat)
    requires i <= j <= |t|
  {
    forall k :: i <= k < j ==> t[k] == ' '
  }

  /** `x` holds no space. */
  predicate SpaceFree(x: string)
  {
    forall k :: 0 <= k < |x| ==> x[k] != ' '
  }

  /** Every element of `w` is a non-empty string without spaces. */
  predicate ProperWords(w: seq<string>)
  {
    forall n :: 0 <= n < |w| ==> w[n] != [] && SpaceFree(w[n])
  }

  /** Every word found is non-empty and holds no space, provided the part
      read so far holds no space. */
  lemma {:induction false} SplitShape(s: string, i: nat, cur: string)
    requires i <= |s| && SpaceFree(cur)
    ensures ProperWords(Split(s, i, cur))
    decreases |s| - i
  {
    if i < |s| {
      if s[i] == ' ' {
        SplitShape(s, i + 1, []);
        var head: seq<string> := if cur == [] then [] else [cur];
        var rest := Split(s, i + 1, []);
        assert Split(s, i, cur) == head + rest;
        forall n | 0 <= n < |head + rest| ensures (head + rest)[n] != [] && SpaceFree((head + rest)[n]) {
          if n < |head| {
            assert (head + rest)[n] == cur;
          } else {
            assert (head + rest)[n] == rest[n - |head|];
          }
        }
      } else {
        var c := cur + [s[i]];
        assert SpaceFree(c) by {
          forall k | 0 <= k < |c| ensures c[k] != ' ' {
            if k < |cur| {
              assert c[k] == cur[k];
            }
          }
        }
        SplitShape(s, i + 1, c);
      }
    }
  }

  /** Every word is non-empty and holds no space. */
  lemma WordsShape(t: string)
    ensures ProperWords(Words(t))
  {
    SplitShape(t, 0, []);
  }

  /** Reading a run of non-space characters appends it to the current word. */
  lemma {:induction false} SplitRun(s: string, i: nat, e: nat, cur: string)
    requires i <= e <= |s| && forall k :: i <= k < e ==> s[k] != ' '
    ensures Split(s, i, cur) == Split(s, e, cur + s[i..e])
    decreases e - i
  {
    if i < e {
      SplitRun(s, i + 1, e, cur + [s[i]]);
      assert cur + [s[i]] + s[i + 1..e] == cur + s[i..e];
    } else {
      assert cur + s[i..e] == cur;
    }
  }

  /** Spaces between words do not change the words. */
  lemma {:induction false} WordsSkipSpaces(s: string, i: nat, j: nat)
    requires i <= j <= |s| && Blank(s, i, j)
    ensures Split(s, i, []) == Split(s, j, [])
    decreases j - i
  {
    if i < j {
      WordsSkipSpaces(s, i + 1, j);
    }
  }

  /** A run of non-space characters from `start` to `end`, followed by a
      space or the end of the text, is the first word from `start`. */
  lemma WordAt(s: string, start: nat, end: nat)
    requires start < end <= |s|
    requires forall k :: start <= k < end ==> s[k] != ' '
    requires end < |s| ==> s[end] == ' '
    ensures Split(s, start, []) == [s[start..end]] + Split(s, end, [])
  {
    SplitRun(s, start, end, []);
    assert [] + s[start..end] == s[start..end];
  }

  /** A text has no words exactly when it is all spaces. */
  lemma WordsBlank(t: string)
    ensures Words(t) == [] <==> Blank(t, 0, |t|)
  {
    var i := SkipDelims(t, 0, SPACE);
    WordsSkipSpaces(t, 0, i);
    if i < |t| {
      WordAt(t, i, SpanToDelim(t, i, SPACE));
    }
  }

  /** Once only spaces are left, the current word (if any) is the last. */
  lemma {:induction false} SplitBlankTail(t: string, j: nat, cur: string)
    requires j <= |t| && Blank(t, j, |t|)
    ensures Split(t, j, cur) == if cur == [] then [] else [cur]
    decreases |t| - j
  {
    if j < |t| {
      SplitBlankTail(t, j + 1, []);
    }
  }

  /** Trailing spaces do not change the words. */
  lemma {:induction false} SplitTrailingSpaces(t: string, i: nat, j: nat, cur: string)
    requires i <= j <= |t| && Blank(t, j, |t|)
    ensures Split(t, i, cur) == Split(t[..j], i, cur)
    decreases j - i
  {
    if i == j {
      SplitBlankTail(t, j, cur);
    } else {
      assert t[..j][i] == t[i];
      if t[i] == ' ' {
        SplitTrailingSpaces(t, i + 1, j, []);
      } else {
        SplitTrailingSpaces(t, i + 1, j, cur + [t[i]]);
      }
    }
  }

  /** Scanning a suffix of `u` is scanning `u` from further on. */
  lemma {:induction false} SplitSuffix(u: string, a: nat, k: nat, cur: string)
    requires a + k <= |u|
    ensures Split(u[a..], k, cur) == Split(u, a + k, cur)
    decreases |u| - a - k
  {
    if a + k < |u| {
      assert u[a..][k] == u[a + k];
      if u[a + k] == ' ' {
        SplitSuffix(u, a, k + 1, []);
      } else {
        SplitSuffix(u, a, k + 1, cur + [u[a + k]]);
      }
    }
  }

  // ---------------------------------------------------------------------
  // strtok(p, " ") yields the words one by one
  // ---------------------------------------------------------------------

  /** strtok with a space delimiter returns NULL exactly when no word is
      left, and otherwise returns the next word and resumes where the
      remaining words start. */
  lemma StrtokWords(s: string, pos: nat)
    requires pos <= |s|
    ensures Strtok(s, pos, SPACE).0.None? <==> Split(s, pos, []) == []
    ensures Strtok(s, pos, SPACE).0.Some? ==>
      Split(s, pos, []) == [Strtok(s, pos, SPACE).0.value] + Split(s, Strtok(s, pos, SPACE).1, [])
  {
    var start := SkipDelims(s, pos, SPACE);
    if start == |s| {
      assert Strtok(s, pos, SPACE).0.None?;
      WordsSkipSpaces(s, pos, start);
    } else {
      var end := SpanToDelim(s, start, SPACE);
      var next := if end < |s| then end + 1 else end;
      assert Strtok(s, pos, SPACE) == (Some(s[start..end]), next);
      WordsSkipSpaces(s, pos, start);
      WordAt(s, start, end);
      WordsSkipSpaces(s, end, next);
    }
  }

  /** The first loop of text_to_parv: at most `n` calls of strtok with a
      space delimiter from `pos`, stopping at the first NULL. Returns the
      tokens and the position where the next strtok call resumes. */
  function Tokenize(s: string, pos: nat, n: nat): (r: (seq<string>, nat))
    requires pos <= |s|
    ensures |r.0| <= n && pos <= r.1 <= |s|
    decreases n
  {
    if n == 0 then ([], pos)
    else
      var t := Strtok(s, pos, SPACE);
      if t.0.None? then ([], t.1)
      else
        var rest := Tokenize(s, t.1, n - 1);
        ([t.0.value] + rest.0, rest.1)
  }

  /** One more round of the loop, with the count of remaining rounds given
      as `n'` so that callers need not relate n - 1 to their own counters. */
  lemma TokenizeStep(s: string, pos: nat, n: nat, n': nat)
    requires pos <= |s| && n == n' + 1
    ensures var t := Strtok(s, pos, SPACE);
      Tokenize(s, pos, n) ==
        if t.0.None? then ([], t.1)
        else ([t.0.value] + Tokenize(s, t.1, n').0, Tokenize(s, t.1, n').1)
  {
  }

  /** Fewer than `n` tokens means strtok returned NULL, which leaves the
      scan at the end of the text. */
  lemma {:induction false} TokenizeShort(s: string, pos: nat, n: nat)
    requires pos <= |s|
    ensures |Tokenize(s, pos, n).0| < n ==> Tokenize(s, pos, n).1 == |s|
    decreases n
  {
    if n > 0 {
      StrtokToken(s, pos, SPACE);
      var t := Strtok(s, pos, SPACE);
      if t.0.Some? {
        TokenizeShort(s, t.1, n - 1);
      }
    }
  }

  /** The tokens are the leading words from `pos`; the rest of the words
      follow the resume position, and when fewer than `n` tokens were found
      no word is left. */
  lemma {:induction false} TokenizeWords(s: string, pos: nat, n: nat)
    requires pos <= |s|
    ensures Split(s, pos, []) == Tokenize(s, pos, n).0 + Split(s, Tokenize(s, pos, n).1, [])
    ensures |Tokenize(s, pos, n).0| < n ==> Split(s, pos, []) == Tokenize(s, pos, n).0
    decreases n
  {
    if n > 0 {
      var t := Strtok(s, pos, SPACE);
      if t.0.Some? {
        var m: nat := n - 1;
        var rest := Tokenize(s, t.1, m);
        TokenizeStep(s, pos, n, m);
        TokenizeWords(s, t.1, m);
        StrtokWords(s, pos);
        var w, wt := Split(s, pos, []), Split(s, t.1, []);
        assert w == [t.0.value] + wt;
        assert wt == rest.0 + Split(s, rest.1, []);
      } else {
        StrtokWords(s, pos);
        assert Tokenize(s, pos, n) == ([], |s|);
      }
    }
  }

  // ---------------------------------------------------------------------
  // Trimming the last parameter
  // ---------------------------------------------------------------------

  /** Stepping back from `j` over spaces, never below `lo`: the end of the
      text once its trailing spaces are cut. */
  function TrimEnd(t: string, lo: nat, j: nat): (r: nat)
    requires lo <= j <= |t|
    ensures lo <= r <= j && Blank(t, r, j)
    ensures r > lo ==> t[r - 1] != ' '
    decreases j
  {
    if j > lo && t[j - 1] == ' ' then TrimEnd(t, lo, j - 1) else j
  }

  /** `t` without its leading and trailing spaces. */
  function Trim(t: string): (r: string)
    ensures r != [] ==> r[0] != ' ' && r[|r| - 1] != ' '
  {
    var i := SkipDelims(t, 0, SPACE);
    t[i..TrimEnd(t, i, |t|)]
  }

  /** Leading spaces up to index i and trailing spaces from index j cut
      away leave t[i..j]. */
  lemma TrimAt(t: string, i: nat, j: nat)
    requires i <= j <= |t| && Blank(t, 0, i) && Blank(t, j, |t|)
    requires i < |t| ==> t[i] != ' '
    requires j > i ==> t[j - 1] != ' '
    ensures Trim(t) == t[i..j]
  {
    var i' := SkipDelims(t, 0, SPACE);
    assert i' < |t| ==> t[i'] != ' ';
    assert i' == i;
    var j' := TrimEnd(t, i, |t|);
    assert j' > i ==> t[j' - 1] != ' ';
    assert j' == j;
  }

  /** Trimming keeps the words, and the trimmed text is empty exactly when
      there are no words. */
  lemma TrimWords(t: string)
    ensures Words(Trim(t)) == Words(t)
    ensures Trim(t) == [] <==> Words(t) == []
  {
    var i := SkipDelims(t, 0, SPACE);
    var j := TrimEnd(t, i, |t|);
    WordsSkipSpaces(t, 0, i);
    SplitTrailingSpaces(t, i, j, []);
    assert t[..j][i..] == Trim(t);
    SplitSuffix(t[..j], i, 0, []);
    WordsBlank(Trim(t));
  }

  // ---------------------------------------------------------------------
  // text_to_parv
  // ---------------------------------------------------------------------

  /** The outcome of text_to_parv: the returned count, and the values
      written to parv[0], parv[1], ... in order (the slots it never writes
      are not part of `slots`). */
  datatype Parsed = Parsed(count: nat, slots: seq<Option<string>>)

  /** Each token as a non-NULL parameter. */
  function Somes(toks: seq<string>): (r: seq<Option<string>>)
    ensures |r| == |toks| && forall i :: 0 <= i < |toks| ==> r[i] == Some(toks[i])
  {
    seq(|toks|, i requires 0 <= i < |toks| => Some(toks[i]))
  }

  /** The number of strtok rounds of the first loop: maxparc - 1, none when
      that is not positive. */
  function TokenRounds(maxparc: int): nat
  {
    if maxparc > 1 then maxparc - 1 else 0
  }

  /** The last parameter: the rest of the text (strtok(p, "")), trimmed;
      NULL when nothing is left. */
  function LastParam(rest: Option<string>): (r: Option<string>)
    ensures r.Some? <==> rest.Some?
  {
    if rest.Some? then Some(Trim(rest.value)) else None
  }

  /** Where strtok(p, "") starts after the first loop: `p` becomes NULL only
      once a token is stored, so with no token stored it is still the text
      and the scan starts over at its beginning; otherwise it resumes where
      the first loop's last strtok call left off. */
  function ResumeAt(t: (seq<string>, nat)): nat
  {
    if |t.0| == 0 then 0 else t.1
  }

  /** text_to_parv as a function of the text and maxparc. */
  function TextToParvSpec(text: Option<string>, maxparc: int): (p: Parsed)
    ensures maxparc == 0 || text.None? ==> p == Parsed(0, [])
    ensures maxparc != 0 && text.Some? ==> |p.slots| <= TokenRounds(maxparc) + 1 && p.count <= |p.slots|
  {
    if maxparc == 0 || text.None? then Parsed(0, [])
    else
      var t := Tokenize(text.value, 0, TokenRounds(maxparc));
      var last := LastParam(Strtok(text.value, ResumeAt(t), {}).0);
      Parsed(|t.0| + (if last.Some? && last.value != [] then 1 else 0), Somes(t.0) + [last])
  }

  /** What text_to_parv computes, in terms of the words W of the text, for
      maxparc >= 1: min(|W|, maxparc) parameters; the first ones are the
      words themselves; when there are at least maxparc words the last
      parameter carries all remaining words, trimmed. With fewer words the
      slot after the last word is the empty string for a blank, non-empty
      text (strtok(text, "") returns it whole and the trim empties it), NULL
      when the first loop ended on a NULL after storing a word, and NULL or
      the empty string when the loop stopped at maxparc - 1 words. */
  lemma TextToParvWords(s: string, maxparc: int)
    requires maxparc >= 1
    ensures var p, w := TextToParvSpec(Some(s), maxparc), Words(s);
      && p.count == (if |w| < maxparc then |w| else maxparc)
      && |p.slots| == (if |w| < maxparc - 1 then |w| else maxparc - 1) + 1
      && (forall i :: 0 <= i < |p.slots| - 1 ==> p.slots[i] == Some(w[i]))
      && (|w| >= maxparc ==>
            && p.slots[maxparc - 1].Some?
            && Words(p.slots[maxparc - 1].value) == w[maxparc - 1..]
            && p.slots[maxparc - 1].value != []
            && p.slots[maxparc - 1].value[0] != ' '
            && p.slots[maxparc - 1].value[|p.slots[maxparc - 1].value| - 1] != ' ')
      && (|w| == 0 ==> p.slots[0] == if s == [] then None else Some([]))
      && (0 < |w| < maxparc - 1 ==> p.slots[|w|] == None)
      && (0 < |w| == maxparc - 1 ==> p.slots[|w|] == None || p.slots[|w|] == Some([]))
  {
    TextToParvWordsHead(s, maxparc);
    TextToParvWordsTail(s, maxparc);
  }

  /** The count, the stored words and, with enough words, the last slot. */
  lemma TextToParvWordsHead(s: string, maxparc: int)
    requires maxparc >= 1
    ensures var p, w := TextToParvSpec(Some(s), maxparc), Words(s);
      && p.count == (if |w| < maxparc then |w| else maxparc)
      && |p.slots| == (if |w| < maxparc - 1 then |w| else maxparc - 1) + 1
      && (forall i :: 0 <= i < |p.slots| - 1 ==> p.slots[i] == Some(w[i]))
      && (|w| >= maxparc ==>
            && p.slots[maxparc - 1].Some?
            && Words(p.slots[maxparc - 1].value) == w[maxparc - 1..]
            && p.slots[maxparc - 1].value != []
            && p.slots[maxparc - 1].value[0] != ' '
            && p.slots[maxparc - 1].value[|p.slots[maxparc - 1].value| - 1] != ' ')
  {
    var n := TokenRounds(maxparc);
    var t := Tokenize(s, 0, n);
    TokenizeWords(s, 0, n);
    TokenizeShort(s, 0, n);
    StrtokNoDelims(s, ResumeAt(t));
    LastParamWords(s, ResumeAt(t));
  }

  /** With fewer than maxparc words, the slot after them. */
  lemma TextToParvWordsTail(s: string, maxparc: int)
    requires maxparc >= 1
    ensures var p, w := TextToParvSpec(Some(s), maxparc), Words(s);
      && |p.slots| == (if |w| < maxparc - 1 then |w| else maxparc - 1) + 1
      && (|w| == 0 ==> p.slots[0] == if s == [] then None else Some([]))
      && (0 < |w| < maxparc - 1 ==> p.slots[|w|] == None)
      && (0 < |w| == maxparc - 1 ==> p.slots[|w|] == None || p.slots[|w|] == Some([]))
  {
    var n := TokenRounds(maxparc);
    var t := Tokenize(s, 0, n);
    TokenizeWords(s, 0, n);
    TokenizeShort(s, 0, n);
    StrtokNoDelims(s, ResumeAt(t));
    LastParamWords(s, ResumeAt(t));
  }

  /** The last parameter taken at `pos` carries the words from `pos`, with
      no space at either end; it is NULL only at the end of the text. */
  lemma LastParamWords(s: string, pos: nat)
    requires pos <= |s|
    ensures var last := LastParam(Strtok(s, pos, {}).0);
      && (last.None? ==> pos == |s| && Split(s, pos, []) == [])
      && (last.Some? ==>
            && Words(last.value) == Split(s, pos, [])
            && (last.value == [] <==> Split(s, pos, []) == [])
            && (last.value != [] ==> last.value[0] != ' ' && last.value[|last.value| - 1] != ' '))
  {
    StrtokNoDelims(s, pos);
    if pos < |s| {
      TrimWords(s[pos..]);
      SplitSuffix(s, pos, 0, []);
    } else {
      SplitBlankTail(s, pos, []);
    }
  }

  /** The count never exceeds a non-negative maxparc; a negative maxparc
      skips the first loop and yields at most one parameter. */
  lemma TextToParvBound(text: Option<string>, maxparc: int)
    ensures maxparc >= 0 ==> TextToParvSpec(text, maxparc).count <= maxparc
    ensures maxparc < 0 ==> TextToParvSpec(text, maxparc).count <= 1
  {
    if maxparc != 0 && text.Some? {
      var s := text.value;
      var t := Tokenize(s, 0, TokenRounds(maxparc));
      StrtokNoDelims(s, ResumeAt(t));
      TokenizeShort(s, 0, TokenRounds(maxparc));
    }
  }

  /** With maxparc == 1 the whole text, trimmed, is the single parameter,
      and a blank text gives none. */
  lemma TextToParvSingle(s: string)
    ensures var p := TextToParvSpec(Some(s), 1);
      && p.slots == [if s == [] then None else Some(Trim(s))]
      && p.count == (if Trim(s) == [] then 0 else 1)
  {
    StrtokNoDelims(s, 0);
    assert s[0..] == s;
    if s == [] {
      assert Trim(s) == [];
    }
  }

  /** text_to_parv (override.c): fills parv from `text` and returns the
      number of parameters. The first loop stores strtok(p, " ") results
      until maxparc - 1 are stored or strtok returns NULL; the slot after
      them gets strtok(p, ""), the rest of the text, with leading spaces
      skipped and trailing spaces cut, and counts when non-empty. While no
      token is stored `p` is still the text, so that strtok(p, "") starts
      over at the beginning. */
  method TextToParv(text: Option<string>, maxparc: int, parv: array<Option<string>>) returns (count: nat)
    requires maxparc != 0 ==> 1 <= parv.Length && maxparc <= parv.Length
    modifies parv
    ensures var p := TextToParvSpec(text, maxparc);
      && count == p.count
      && |p.slots| <= parv.Length
      && parv[..] == p.slots + old(parv[..])[|p.slots|..]
  {
    if maxparc == 0 {
      return 0;
    }
    if text.None? {
      return 0;
    }
    var s := text.value;
    var pos: nat;
    count, pos := StoreTokens(s, maxparc, parv);
    ghost var toks := Tokenize(s, 0, TokenRounds(maxparc)).0;
    ghost var looped := parv[..];
    var from := if count == 0 then 0 else pos;
    var last := StoreRest(s, from, parv, count);
    LastSlot(toks, old(parv[..]), last, looped, parv[..]);
    if last.Some? && last.value != [] {
      count := count + 1;
    }
  }

  /** The second half of text_to_parv: parv[slot] gets strtok(p, ""), the
      rest of the text from `from`; when that is not NULL, the leading spaces
      are skipped and the trailing ones cut. */
  method StoreRest(s: string, from: nat, parv: array<Option<string>>, slot: nat) returns (last: Option<string>)
    requires from <= |s| && slot < parv.Length
    modifies parv
    ensures last == LastParam(Strtok(s, from, {}).0)
    ensures parv[..] == old(parv[..])[slot := last]
  {
    var rest := Strtok(s, from, {}).0;
    parv[slot] := rest;
    last := rest;
    if rest.Some? {
      var trimmed := TrimSpaces(rest.value);
      last := Some(trimmed);
      parv[slot] := last;
    }
  }

  /** The first loop of text_to_parv: strtok(p, " ") results go to parv[0],
      parv[1], ... while fewer than maxparc - 1 are stored and strtok does
      not return NULL. Returns the number stored and where the scan resumes;
      the slot after the stored tokens may have received the final NULL. */
  method StoreTokens(s: string, maxparc: int, parv: array<Option<string>>) returns (count: nat, pos: nat)
    requires TokenRounds(maxparc) < parv.Length
    modifies parv
    ensures var target := Tokenize(s, 0, TokenRounds(maxparc));
      && count == |target.0| && pos == target.1 && count < parv.Length
      && parv[..count] == Somes(target.0)
      && parv[count + 1..] == old(parv[..])[count + 1..]
  {
    ghost var target := Tokenize(s, 0, TokenRounds(maxparc));
    ghost var rounds: nat := TokenRounds(maxparc);
    ghost var left: nat := rounds;
    ghost var orig := parv[..];
    ghost var stopped := false;
    pos := 0;
    count := 0;
    while count < maxparc - 1
      invariant pos <= |s| && count + left == rounds && count <= |target.0| && |orig| == parv.Length
      invariant target.0 == target.0[..count] + Tokenize(s, pos, left).0
      invariant target.1 == Tokenize(s, pos, left).1
      invariant parv[..] == Somes(target.0[..count]) + orig[count..]
      decreases left
    {
      var tok := Strtok(s, pos, SPACE);
      ghost var before := parv[..];
      parv[count] := tok.0;
      var left': nat := left - 1;
      TokenizeStep(s, pos, left, left');
      if tok.0.None? {
        pos := tok.1;
        NullStored(target.0, orig, count, before, parv[..]);
        stopped := true;
        break;
      }
      var count': nat := count + 1;
      TokenStep(target.0, orig, count, count', tok.0.value, Tokenize(s, tok.1, left').0, before, parv[..]);
      count, pos, left := count', tok.1, left';
    }
    if !stopped {
      TokensStored(target.0, orig, count, parv[..]);
    }
  }

  /** The vector after one more stored token. */
  lemma TokenStep(toks: seq<string>, orig: seq<Option<string>>, count: nat, count': nat,
                  tok: string, more: seq<string>, a0: seq<Option<string>>, a1: seq<Option<string>>)
    requires count' == count + 1 && count <= |toks| && count < |orig| == |a0|
    requires toks == toks[..count] + ([tok] + more)
    requires a0 == Somes(toks[..count]) + orig[count..] && a1 == a0[count := Some(tok)]
    ensures count' <= |toks| && toks == toks[..count'] + more
    ensures a1 == Somes(toks[..count']) + orig[count'..]
  {
    assert toks[..count'] == toks[..count] + [tok];
    assert Somes(toks[..count']) == Somes(toks[..count]) + [Some(tok)];
  }

  /** The vector after strtok's NULL is stored behind all the tokens. */
  lemma NullStored(toks: seq<string>, orig: seq<Option<string>>, count: nat, a0: seq<Option<string>>, a1: seq<Option<string>>)
    requires count <= |toks| && count < |orig| && toks == toks[..count] + []
    requires a0 == Somes(toks[..count]) + orig[count..] && a1 == a0[count := None]
    ensures count == |toks| && a1[..count] == Somes(toks) && a1[count + 1..] == orig[count + 1..]
  {
  }

  /** The vector after maxparc - 1 stored tokens. */
  lemma TokensStored(toks: seq<string>, orig: seq<Option<string>>, count: nat, a: seq<Option<string>>)
    requires count <= |toks| && count < |orig| && toks == toks[..count] + []
    requires a == Somes(toks[..count]) + orig[count..]
    ensures count == |toks| && a[..count] == Somes(toks) && a[count + 1..] == orig[count + 1..]
  {
  }

  /** The vector after the slot following the tokens is written. */
  lemma LastSlot(toks: seq<string>, orig: seq<Option<string>>, last: Option<string>,
                 a0: seq<Option<string>>, a1: seq<Option<string>>)
    requires |toks| < |orig| == |a0| && a0[..|toks|] == Somes(toks) && a0[|toks| + 1..] == orig[|toks| + 1..]
    requires a1 == a0[|toks| := last]
    ensures a1 == (Somes(toks) + [last]) + orig[|toks| + 1..]
  {
  }

  /** The trimming step of text_to_parv: skip the leading spaces, then, if
      anything is left, step back from the last character over spaces. */
  method TrimSpaces(r: string) returns (trimmed: string)
    ensures trimmed == Trim(r)
  {
    var i: nat := 0;
    while i < |r| && r[i] == ' '
      invariant i <= |r| && Blank(r, 0, i)
    {
      i := i + 1;
    }
    var end: nat := i;
    if i < |r| {
      var e: nat := |r| - 1;
      while r[e] == ' ' && e > i
        invariant i <= e < |r| && Blank(r, e + 1, |r|)
      {
        e := e - 1;
      }
      end := e + 1;
    }
    trimmed := r[i..end];
    TrimAt(r, i, end);
  }

  /** The clearing loop of os_cmd_override: every slot from `from` to the
      end of the vector becomes NULL; the slots before it are kept. */
  method NullFill(vec: array<Option<string>>, from: nat)
    modifies vec
    ensures forall i :: 0 <= i < vec.Length ==> vec[i] == if i < from then old(vec[i]) else None
  {
    var i := from;
    while i < vec.Length
      invariant forall k :: 0 <= k < vec.Length ==>
        vec[k] == if k < from || i <= k then old(vec[k]) else None
    {
      vec[i] := None;
      i := i + 1;
    }
  }

  /** os_cmd_override's parameter handling: the fourth parameter (or "" when
      it is absent) is split by text_to_parv into the 20-slot vector, whose
      slots from the returned count on are then cleared. */
  method OverrideParams(param: Option<string>, maxparc: int, newparv: array<Option<string>>)
    returns (newparc: nat)
    requires newparv.Length == NEWPARV_SIZE && maxparc <= NEWPARV_SIZE
    modifies newparv
    ensures var p := TextToParvSpec(Some(if param.Some? then param.value else ""), maxparc);
      && newparc == p.count
      && (forall i :: 0 <= i < newparc ==> newparv[i] == p.slots[i])
      && (forall i :: newparc <= i < NEWPARV_SIZE ==> newparv[i].None?)
  {
    var text := if param.Some? then param.value else "";
    newparc := TextToParv(Some(text), maxparc, newparv);
    NullFill(newparv, newparc);
  }
}
