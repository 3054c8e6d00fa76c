/** The AI lab's demo preview: the colour scheme picked by the generated
    page's vibe, and the slug shown in its simulated address bar,
    `title.toLowerCase().replace(/\s+/g, '-')`. */
module Demo {
  import opened JsText

  /** The vibes with a scheme of their own. */
  const Vibes: seq<string> := ["futuristic", "minimalist", "corporate", "playful"]

  const DefaultStyle: string := "from-slate-900 to-black text-white"

  /** getVibeStyles: a known vibe gets its own scheme, anything else the default. */
  function VibeStyles(vibe: string): (r: string)
    ensures vibe !in Vibes <==> r == DefaultStyle
  {
    match vibe
    case "futuristic" => "from-indigo-900 to-black text-cyan-400"
    case "minimalist" => "from-slate-50 to-white text-slate-900"
    case "corporate" => "from-blue-800 to-blue-950 text-white"
    case "playful" => "from-rose-400 to-amber-400 text-white"
    case _ => DefaultStyle
  }

  /** The scheme tells which known vibe it was chosen for. */
  lemma StyleIdentifiesVibe(a: string, b: string)
    requires VibeStyles(a) == VibeStyles(b)
    ensures a == b || (a !in Vibes && b !in Vibes)
  {
  }

  predicate NoSpace(s: string) {
    forall i :: 0 <= i < |s| ==> !IsSpace(s[i])
  }

  /** `replace(/\s+/g, '-')`: every maximal run of white space becomes one hyphen. */
  function CollapseSpaces(s: string): (r: string)
    ensures NoSpace(r)
    ensures |r| <= |s|
    ensures forall i :: 0 <= i < |r| ==> r[i] == '-' || r[i] in s
    decreases |s|
  {
    if s == [] then []
    else if IsSpace(s[0]) then
      var rest := TrimStart(s);
      assert rest != s;
      var r := "-" + CollapseSpaces(rest);
      assert forall c :: c in rest ==> c in s;
      r
    else
      var tail := CollapseSpaces(s[1..]);
      assert forall c :: c in s[1..] ==> c in s;
      [s[0]] + tail
  }

  /** Text without white space is left as it is, and only such text is. */
  lemma {:induction false} CollapseFixedPoint(s: string)
    ensures CollapseSpaces(s) == s <==> NoSpace(s)
    decreases |s|
  {
    if NoSpace(s) && s != [] {
      CollapseFixedPoint(s[1..]);
      assert [s[0]] + s[1..] == s;
    }
  }

  /** Two words separated by a run of white space become the words joined by
      one hyphen. */
  lemma {:induction false} CollapseWords(w1: string, gap: string, w2: string)
    requires NoSpace(w1)
    requires gap != [] && AllSpace(gap)
    requires w2 == [] || !IsSpace(w2[0])
    ensures CollapseSpaces(w1 + gap + w2) == w1 + "-" + CollapseSpaces(w2)
    decreases |w1|
  {
    var t := CollapseSpaces(w2);
    if w1 == [] {
      assert w1 + gap + w2 == gap + w2;
      CollapseGap(gap, w2);
    } else {
      var c, tail := w1[0], w1[1..];
      assert NoSpace(tail) by {
        forall i | 0 <= i < |tail|
          ensures !IsSpace(tail[i])
        {
          assert tail[i] == w1[i + 1];
        }
      }
      calc {
        CollapseSpaces(w1 + gap + w2);
        { assert w1 + gap + w2 == [c] + (tail + gap + w2); }
        CollapseSpaces([c] + (tail + gap + w2));
        { CollapseKeeps(c, tail + gap + w2); }
        [c] + CollapseSpaces(tail + gap + w2);
        { CollapseWords(tail, gap, w2); }
        [c] + (tail + "-" + t);
        { assert [c] + tail == w1; }
        w1 + "-" + t;
      }
    }
  }

  /** A character other than white space is copied. */
  lemma CollapseKeeps(c: char, rest: string)
    requires !IsSpace(c)
    ensures CollapseSpaces([c] + rest) == [c] + CollapseSpaces(rest)
  {
    assert ([c] + rest)[0] == c && ([c] + rest)[1..] == rest;
  }

  /** A leading run of white space becomes one hyphen. */
  lemma CollapseGap(gap: string, w: string)
    requires gap != [] && AllSpace(gap)
    requires w == [] || !IsSpace(w[0])
    ensures CollapseSpaces(gap + w) == "-" + CollapseSpaces(w)
  {
    assert (gap + w)[0] == gap[0];
    GapTrimmed(gap, w);
  }

  lemma {:induction false} GapTrimmed(gap: string, w: string)
    requires AllSpace(gap)
    requires w == [] || !IsSpace(w[0])
    ensures TrimStart(gap + w) == w
    decreases |gap|
  {
    if gap != [] {
      assert (gap + w)[1..] == gap[1..] + w;
      GapTrimmed(gap[1..], w);
    }
  }

  /** The demo's address-bar slug. */
  function Slug(title: string): (r: string)
    ensures NoSpace(r)
    ensures forall i :: 0 <= i < |r| ==> !IsUpper(r[i])
    ensures |r| <= |title|
  {
    ToLowerFacts(title);
    CollapseSpaces(ToLower(title))
  }

  lemma {:induction false} LowerFixedPoint(s: string)
    requires forall i :: 0 <= i < |s| ==> !IsUpper(s[i])
    ensures ToLower(s) == s
  {
    ToLowerFacts(s);
  }

  /** A slug is its own slug. */
  lemma SlugIdempotent(title: string)
    ensures Slug(Slug(title)) == Slug(title)
  {
    var r := Slug(title);
    LowerFixedPoint(r);
    CollapseFixedPoint(r);
  }
}
