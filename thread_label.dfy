/** The title shown in the zone's head (`getThreadLabel`): the thread's own label
    when it has one, otherwise the participants of the discussion, otherwise a prompt. */
module ThreadLabel {
  import opened ThreadTypes

  const ParticipantsPrefix := "Participants: "
  const StartDiscussion := "Start discussion"
  const Separator := ", "

  /** `Array.prototype.indexOf` with strict equality: the first index holding x, or -1. */
  function IndexOf<T(==)>(s: seq<T>, x: T): (r: int)
    ensures -1 <= r < |s|
    ensures r == -1 <==> x !in s
    ensures 0 <= r ==> s[r] == x && x !in s[..r]
  {
    if |s| == 0 then -1
    else if s[0] == x then 0
    else
      var k := IndexOf(s[1..], x);
      assert k >= 0 ==> s[1..][..k] == s[1..k + 1];
      if k == -1 then -1 else k + 1
  }

  /** `s.filter(onlyUnique)` restricted to the indices from i on: index j is kept
      exactly when `s.indexOf(s[j]) === j`. */
  function FilterFrom(s: seq<Comment>, i: nat): seq<Comment>
    requires i <= |s|
    decreases |s| - i
  {
    if i == |s| then []
    else (if IndexOf(s, s[i]) == i then [s[i]] else []) + FilterFrom(s, i + 1)
  }

  function FilterOnlyUnique(s: seq<Comment>): seq<Comment>
  {
    FilterFrom(s, 0)
  }

  /** Reference definition: the first occurrence of every element, in order. */
  function Dedupe(s: seq<Comment>): seq<Comment>
  {
    if |s| == 0 then []
    else
      var p := s[..|s| - 1];
      if s[|s| - 1] in p then Dedupe(p) else Dedupe(p) + [s[|s| - 1]]
  }

  /** Deduplication keeps every comment object of the thread and lists none twice. */
  lemma {:induction false} DedupeProperties(s: seq<Comment>)
    ensures forall x :: x in Dedupe(s) <==> x in s
    ensures forall i, j :: 0 <= i < j < |Dedupe(s)| ==> Dedupe(s)[i] != Dedupe(s)[j]
  {
    if |s| > 0 {
      var p := s[..|s| - 1];
      DedupeProperties(p);
      assert forall x :: x in s <==> x in p || x == s[|s| - 1] by {
        assert s == p + [s[|s| - 1]];
      }
    }
  }

  function Mention(c: Comment): string
  {
    "@" + c.userName
  }

  /** `.map(comment => '@' + comment.userName)` */
  function Mentions(cs: seq<Comment>): seq<string>
  {
    if |cs| == 0 then []
    else Mentions(cs[..|cs| - 1]) + [Mention(cs[|cs| - 1])]
  }

  /** Each comment maps, position by position, to its author's mention. */
  lemma {:induction false} MentionsAt(cs: seq<Comment>)
    ensures |Mentions(cs)| == |cs|
    ensures forall i :: 0 <= i < |cs| ==> Mentions(cs)[i] == "@" + cs[i].userName
  {
    if |cs| > 0 {
      MentionsAt(cs[..|cs| - 1]);
    }
  }

  /** `Array.prototype.join(sep)` */
  function Join(parts: seq<string>, sep: string): string
  {
    if |parts| == 0 then ""
    else if |parts| == 1 then parts[0]
    else parts[0] + sep + Join(parts[1..], sep)
  }

  /** `getThreadLabel`: an explicit label (even an empty one) wins; a thread with at least
      one comment lists its distinct comment objects; otherwise the prompt. */
  function Label(explicit: Option<string>, comments: Option<seq<Comment>>): string
  {
    match explicit
    case Some(l) => l
    case None =>
      if comments.Some? && |comments.value| > 0 then
        ParticipantsPrefix + Join(Mentions(FilterOnlyUnique(comments.value)), Separator)
      else StartDiscussion
  }

  lemma {:induction false} IndexOfSnoc<T>(s: seq<T>, x: T, y: T)
    requires y in s
    ensures IndexOf(s + [x], y) == IndexOf(s, y)
    decreases |s|
  {
    if s[0] != y {
      assert (s + [x])[1..] == s[1..] + [x];
      IndexOfSnoc(s[1..], x, y);
    }
  }

  /** Appending one element to the array changes the filtered array only at its end. */
  lemma {:induction false} FilterFromSnoc(s: seq<Comment>, x: Comment, i: nat)
    requires i <= |s|
    ensures FilterFrom(s + [x], i) == FilterFrom(s, i) + (if x in s then [] else [x])
    decreases |s| - i
  {
    var t := s + [x];
    if i == |s| {
      assert t[i] == x && t[..i] == s;
      assert IndexOf(t, x) == i <==> x !in s;
      assert FilterFrom(t, i + 1) == [];
    } else {
      assert t[i] == s[i];
      IndexOfSnoc(s, x, s[i]);
      FilterFromSnoc(s, x, i + 1);
      var keep := if IndexOf(s, s[i]) == i then [s[i]] else [];
      calc {
        FilterFrom(t, i);
        keep + FilterFrom(t, i + 1);
        keep + (FilterFrom(s, i + 1) + (if x in s then [] else [x]));
        (keep + FilterFrom(s, i + 1)) + (if x in s then [] else [x]);
      }
    }
  }

  /** The source's `indexOf`-based filter keeps exactly the first occurrence of each element, in order. */
  lemma {:induction false} FilterIsDedupe(s: seq<Comment>)
    ensures FilterOnlyUnique(s) == Dedupe(s)
  {
    if |s| > 0 {
      var p, x := s[..|s| - 1], s[|s| - 1];
      assert s == p + [x];
      FilterFromSnoc(p, x, 0);
      FilterIsDedupe(p);
    }
  }

  lemma {:induction false} JoinSnoc(parts: seq<string>, sep: string, x: string)
    requires |parts| > 0
    ensures Join(parts + [x], sep) == Join(parts, sep) + sep + x
    decreases |parts|
  {
    if |parts| > 1 {
      assert (parts + [x])[1..] == parts[1..] + [x];
      JoinSnoc(parts[1..], sep, x);
    }
  }

  /** `getThreadLabel`: an explicit label is returned as it is; an unlabelled thread with comments
      is titled by the mentions of its distinct comment objects, in order of first occurrence. */
  lemma LabelCases(l: string, o: Option<seq<Comment>>, cs: seq<Comment>)
    ensures Label(Some(l), o) == l
    ensures |cs| > 0 ==> Label(None, Some(cs)) == ParticipantsPrefix + Join(Mentions(Dedupe(cs)), Separator)
  {
    FilterIsDedupe(cs);
  }

  lemma DedupeSnoc(cs: seq<Comment>, c: Comment)
    ensures Dedupe(cs + [c]) == if c in cs then Dedupe(cs) else Dedupe(cs) + [c]
  {
    var t := cs + [c];
    assert t[..|t| - 1] == cs && t[|t| - 1] == c;
  }

  lemma MentionsSnoc(cs: seq<Comment>, c: Comment)
    ensures Mentions(cs + [c]) == Mentions(cs) + [Mention(c)]
  {
    var t := cs + [c];
    assert t[..|t| - 1] == cs && t[|t| - 1] == c;
  }

  /** Adding a comment to a thread without an explicit label: a new comment object appends
      its author's mention to the participants; an object already present changes nothing.
      Two different objects by the same author are both mentioned. */
  lemma {:induction false} LabelSnoc(cs: seq<Comment>, c: Comment)
    requires |cs| > 0
    ensures Label(None, Some(cs + [c])) ==
      if c in cs then Label(None, Some(cs))
      else Label(None, Some(cs)) + Separator + Mention(c)
  {
    var d := Dedupe(cs);
    assert Label(None, Some(cs)) == ParticipantsPrefix + Join(Mentions(d), Separator) by {
      FilterIsDedupe(cs);
    }
    assert Label(None, Some(cs + [c])) == ParticipantsPrefix + Join(Mentions(Dedupe(cs + [c])), Separator) by {
      FilterIsDedupe(cs + [c]);
    }
    DedupeSnoc(cs, c);
    if c !in cs {
      var m, j := Mention(c), Join(Mentions(d), Separator);
      assert Join(Mentions(d + [c]), Separator) == j + Separator + m by {
        MentionsSnoc(d, c);
        assert |d| > 0 by { DedupeProperties(cs); assert cs[0] in d; }
        JoinSnoc(Mentions(d), Separator, m);
      }
      assert ParticipantsPrefix + (j + Separator + m) == (ParticipantsPrefix + j) + Separator + m;
    }
  }

  lemma SingleCommentLabel(c: Comment)
    ensures Label(None, Some([c])) == ParticipantsPrefix + Mention(c)
  {
    assert FilterFrom([c], 1) == [];
    assert FilterOnlyUnique([c]) == [c];
    assert [c][..0] == [];
    assert Mentions([c]) == [Mention(c)];
  }

  /** Three distinct comment objects by "a", "b" and "a" are labelled "Participants: @a, @b, @a". */
  lemma SameAuthorExample(a1: Comment, b2: Comment, a3: Comment)
    requires a1.userName == "a" && b2.userName == "b" && a3.userName == "a"
    requires a1 != b2 && a1 != a3 && b2 != a3
    ensures Label(None, Some([a1, b2, a3])) == "Participants: @a, @b, @a"
  {
    var one := Label(None, Some([a1]));
    assert one == ParticipantsPrefix + Mention(a1) by {
      SingleCommentLabel(a1);
    }
    var two := Label(None, Some([a1, b2]));
    assert two == one + Separator + Mention(b2) by {
      assert [a1] + [b2] == [a1, b2];
      LabelSnoc([a1], b2);
    }
    var three := Label(None, Some([a1, b2, a3]));
    assert three == two + Separator + Mention(a3) by {
      assert [a1, b2] + [a3] == [a1, b2, a3];
      LabelSnoc([a1, b2], a3);
    }
    assert Mention(a1) == "@a" && Mention(b2) == "@b" && Mention(a3) == "@a";
  }

  /** The same comment object listed twice is mentioned once. */
  lemma SameObjectExample(a1: Comment)
    requires a1.userName == "a"
    ensures Label(None, Some([a1, a1])) == "Participants: @a"
  {
    assert Label(None, Some([a1])) == ParticipantsPrefix + Mention(a1) by {
      SingleCommentLabel(a1);
    }
    assert Label(None, Some([a1, a1])) == Label(None, Some([a1])) by {
      assert [a1] + [a1] == [a1, a1];
      LabelSnoc([a1], a1);
    }
  }

  /** A thread without comments asks to start a discussion; an explicit label, even an empty one, wins. */
  lemma FallbackExamples()
    ensures Label(None, Some([])) == StartDiscussion && Label(None, None) == StartDiscussion
    ensures Label(Some(""), Some([Comment(1, "a")])) == ""
  {
  }
}
