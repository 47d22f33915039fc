/** Text compares character by character, and is cut at separators. */
module Text {
  predicate StringLess(s: string, t: string) {
    t != "" && (s == "" || s[0] < t[0] || (s[0] == t[0] && StringLess(s[1..], t[1..])))
  }

  lemma {:induction false} StringLessIsTotal(s: string, t: string)
    ensures s == t || StringLess(s, t) || StringLess(t, s)
    ensures !(StringLess(s, t) && StringLess(t, s))
  {
    if s != "" && t != "" {
      StringLessIsTotal(s[1..], t[1..]);
      assert s == [s[0]] + s[1..] && t == [t[0]] + t[1..];
    }
  }

  lemma {:induction false} StringLessIsTransitive(s: string, t: string, u: string)
    requires StringLess(s, t) && StringLess(t, u)
    ensures StringLess(s, u)
  {
    if s != "" && t[0] == s[0] && u[0] == t[0] {
      StringLessIsTransitive(s[1..], t[1..], u[1..]);
    }
  }

  /** The texts agree up to i, and there the first ends or has the lesser character. */
  predicate DivergesAt(s: string, t: string, i: nat) {
    i <= |s| && i < |t| && s[..i] == t[..i] && (i == |s| || s[i] < t[i])
  }

  lemma PrefixesAgree(s: string, t: string, i: nat)
    requires i <= |s| && i <= |t| && s[..i] == t[..i]
    ensures forall k :: 0 <= k < i ==> s[k] == t[k]
  {
    forall k | 0 <= k < i ensures s[k] == t[k] {
      assert s[..i][k] == t[..i][k];
    }
  }

  lemma DivergesAtOnce(s: string, t: string, i: nat)
    requires DivergesAt(s, t, i) && (s == "" || t == "" || s[0] != t[0])
    ensures i == 0
  {
    PrefixesAgree(s, t, i);
  }

  /** Lexicographic: a text comes before its extensions, else the first difference decides. */
  lemma {:induction false} StringLessMeans(s: string, t: string)
    ensures StringLess(s, t) <==> exists i: nat :: DivergesAt(s, t, i)
  {
    if s == "" || t == "" || s[0] != t[0] {
      assert DivergesAt(s, t, 0) || t == "" || (s != "" && s[0] > t[0]);
      forall i: nat | DivergesAt(s, t, i) ensures i == 0 {
        DivergesAtOnce(s, t, i);
      }
    } else {
      StringLessMeans(s[1..], t[1..]);
      if i: nat :| DivergesAt(s[1..], t[1..], i) {
        assert s[..i+1] == [s[0]] + s[1..][..i] && t[..i+1] == [t[0]] + t[1..][..i];
        assert DivergesAt(s, t, i + 1);
      }
      if i: nat :| DivergesAt(s, t, i) {
        assert s[1..][..i-1] == s[..i][1..] && t[1..][..i-1] == t[..i][1..];
        assert DivergesAt(s[1..], t[1..], i - 1);
      }
    }
  }

  /** Where a separator first stands, or the length if it does not. */
  function IndexOf(s: string, c: char): (i: nat)
    ensures i <= |s| && c !in s[..i] && (i < |s| ==> s[i] == c)
  {
    if s == "" || s[0] == c then 0
    else
      var i := IndexOf(s[1..], c);
      assert s[..i+1] == [s[0]] + s[1..][..i];
      1 + i
  }

  lemma {:induction false} IndexOfSeparator(a: string, b: string, c: char)
    requires c !in a
    ensures IndexOf(a + [c] + b, c) == |a|
  {
    var s := a + [c] + b;
    if a != "" {
      assert s[1..] == a[1..] + [c] + b;
      IndexOfSeparator(a[1..], b, c);
    }
  }

  /** A text cut at the first separator. */
  lemma CutAtSeparator(s: string, a: string, b: string, c: char)
    requires c !in a && s == a + [c] + b
    ensures var i := IndexOf(s, c);
            i < |s| && s[..i] == a && s[i+1..] == b
  {
    IndexOfSeparator(a, b, c);
  }

  /** The two sides of the first separator make up the text again. */
  lemma SidesJoin(s: string, c: char)
    ensures var i := IndexOf(s, c);
            i < |s| ==> s == s[..i] + [c] + s[i+1..]
  {
  }

  /** The texts not known yet, each where it is first mentioned. */
  function FirstMentions(known: set<string>, texts: seq<string>): seq<string>
    decreases |texts|
  {
    if texts == [] then []
    else (if texts[0] in known then [] else [texts[0]]) + FirstMentions(known + {texts[0]}, texts[1..])
  }

  function SetOf(texts: seq<string>): set<string> {
    set t | t in texts
  }

  lemma MentionFirst(known: set<string>, t: string, rest: seq<string>)
    ensures FirstMentions(known, [t] + rest) == (if t in known then [] else [t]) + FirstMentions(known + {t}, rest)
  {
    assert ([t] + rest)[0] == t && ([t] + rest)[1..] == rest;
  }

  lemma KnownGrows(known: set<string>, t: string, rest: seq<string>)
    ensures known + {t} + SetOf(rest) == known + SetOf([t] + rest)
  {
  }

  lemma MentionsStep(known: set<string>, t: string, a: seq<string>, b: seq<string>)
    requires FirstMentions(known + {t}, a + b)
          == FirstMentions(known + {t}, a) + FirstMentions(known + {t} + SetOf(a), b)
    ensures FirstMentions(known, [t] + (a + b))
         == FirstMentions(known, [t] + a) + FirstMentions(known + SetOf([t] + a), b)
  {
    MentionFirst(known, t, a);
    MentionFirst(known, t, a + b);
    KnownGrows(known, t, a);
    Regroup(if t in known then [] else [t], FirstMentions(known + {t}, a), FirstMentions(known + {t} + SetOf(a), b));
  }

  lemma Regroup(a: seq<string>, b: seq<string>, c: seq<string>)
    ensures a + (b + c) == (a + b) + c
  {
  }

  lemma {:induction false} MentionsJoin(known: set<string>, a: seq<string>, b: seq<string>)
    ensures FirstMentions(known, a + b) == FirstMentions(known, a) + FirstMentions(known + SetOf(a), b)
    decreases |a|
  {
    if a == [] {
      assert a + b == b && known + SetOf(a) == known;
    } else {
      var t, rest := a[0], a[1..];
      MentionsJoin(known + {t}, rest, b);
      MentionsStep(known, t, rest, b);
      assert a == [t] + rest && a + b == [t] + (rest + b);
    }
  }

  lemma {:induction false} MentionedAre(known: set<string>, texts: seq<string>, t: string)
    ensures t in FirstMentions(known, texts) <==> t in texts && t !in known
    decreases |texts|
  {
    if texts != [] {
      MentionedAre(known + {texts[0]}, texts[1..], t);
    }
  }

  /** Once mentioned, known; so mentioning goes on from there. */
  lemma MentionsGoOn(had: seq<string>, a: seq<string>, b: seq<string>)
    ensures var more := had + FirstMentions(SetOf(had), a);
            more + FirstMentions(SetOf(more), b) == had + FirstMentions(SetOf(had), a + b)
  {
    var added := FirstMentions(SetOf(had), a);
    forall t ensures t in SetOf(had + added) <==> t in SetOf(had) + SetOf(a) {
      MentionedAre(SetOf(had), a, t);
    }
    assert SetOf(had + added) == SetOf(had) + SetOf(a);
    MentionsJoin(SetOf(had), a, b);
    Regroup(had, added, FirstMentions(SetOf(had) + SetOf(a), b));
  }

  lemma OneMoreMention(texts: seq<string>, t: string)
    ensures FirstMentions({}, texts + [t]) == FirstMentions({}, texts) + if t in texts then [] else [t]
  {
    MentionsJoin({}, texts, [t]);
    MentionFirst(SetOf(texts), t, []);
    assert [t] + [] == [t] && {} + SetOf(texts) == SetOf(texts);
  }
}
