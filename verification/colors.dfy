/** The skill-card colour lookup (frontend/utils/colors.ts). */
module Colors {
  import opened Text

  /** The four Tailwind classes of a colour scheme. */
  datatype Scheme = Scheme(bg: string, text: string, border: string, progress: string)

  /** `COLOR_SCHEMES`, written out entry by entry. */
  const ColorSchemes: map<string, Scheme> := map[
    "blue" := Scheme("bg-blue-100", "text-blue-800", "border-blue-200", "bg-blue-500"),
    "green" := Scheme("bg-green-100", "text-green-800", "border-green-200", "bg-green-500"),
    "purple" := Scheme("bg-purple-100", "text-purple-800", "border-purple-200", "bg-purple-500"),
    "orange" := Scheme("bg-orange-100", "text-orange-800", "border-orange-200", "bg-orange-500"),
    "pink" := Scheme("bg-pink-100", "text-pink-800", "border-pink-200", "bg-pink-500"),
    "gray" := Scheme("bg-gray-100", "text-gray-800", "border-gray-200", "bg-gray-500")
  ]

  const KnownColors: set<string> := {"blue", "green", "purple", "orange", "pink", "gray"}

  /** The naming rule every scheme follows: a light background, dark text, a pale
      border and a mid-tone progress bar, all of the one colour. */
  function SchemeFor(c: string): Scheme {
    Scheme("bg-" + c + "-100", "text-" + c + "-800", "border-" + c + "-200", "bg-" + c + "-500")
  }

  /** The table declares exactly the six known colours, each following the naming rule. */
  lemma TableFollowsNamingRule()
    ensures ColorSchemes.Keys == KnownColors
    ensures forall c :: c in ColorSchemes ==> ColorSchemes[c] == SchemeFor(c)
  {
    KeysAreKnown();
    forall c | c in ColorSchemes
      ensures ColorSchemes[c] == SchemeFor(c)
    {
      EntryFollowsNamingRule(c);
    }
  }

  lemma KeysAreKnown()
    ensures ColorSchemes.Keys == KnownColors
  {
  }

  lemma EntryFollowsNamingRule(c: string)
    requires c in KnownColors
    ensures c in ColorSchemes && ColorSchemes[c] == SchemeFor(c)
  {
    KeysAreKnown();
    if c == "blue" { BlueEntry(); }
    else if c == "green" { GreenEntry(); }
    else if c == "purple" { PurpleEntry(); }
    else if c == "orange" { OrangeEntry(); }
    else if c == "pink" { PinkEntry(); }
    else { GrayEntry(); }
  }

  lemma BlueEntry()
    ensures "blue" in ColorSchemes && ColorSchemes["blue"] == SchemeFor("blue")
  {
  }

  lemma GreenEntry()
    ensures "green" in ColorSchemes && ColorSchemes["green"] == SchemeFor("green")
  {
  }

  lemma PurpleEntry()
    ensures "purple" in ColorSchemes && ColorSchemes["purple"] == SchemeFor("purple")
  {
  }

  lemma OrangeEntry()
    ensures "orange" in ColorSchemes && ColorSchemes["orange"] == SchemeFor("orange")
  {
  }

  lemma PinkEntry()
    ensures "pink" in ColorSchemes && ColorSchemes["pink"] == SchemeFor("pink")
  {
  }

  lemma GrayEntry()
    ensures "gray" in ColorSchemes && ColorSchemes["gray"] == SchemeFor("gray")
  {
  }

  /** `getColorClasses`: the colour's own scheme, or gray for any other name. */
  function GetColorClasses(c: string): (r: Scheme)
    ensures c in KnownColors ==> r == SchemeFor(c)
    ensures c !in KnownColors ==> r == SchemeFor("gray")
    ensures StartsWith(r.bg, "bg-") && StartsWith(r.text, "text-")
    ensures StartsWith(r.border, "border-") && StartsWith(r.progress, "bg-")
  {
    TableFollowsNamingRule();
    if c in ColorSchemes then ColorSchemes[c] else ColorSchemes["gray"]
  }

  /** Every colour name lands on one of the six schemes, and distinct known colours
      give distinct schemes. */
  lemma LookupIsTotalAndInjective(c: string, d: string)
    ensures exists k :: k in KnownColors && GetColorClasses(c) == SchemeFor(k)
    ensures c in KnownColors && d in KnownColors && c != d ==> GetColorClasses(c) != GetColorClasses(d)
  {
    if c in KnownColors {
      assert c in KnownColors && GetColorClasses(c) == SchemeFor(c);
    } else {
      assert "gray" in KnownColors && GetColorClasses(c) == SchemeFor("gray");
    }
    if c in KnownColors && d in KnownColors && SchemeFor(c) == SchemeFor(d) {
      SchemeForInjective(c, d);
    }
  }

  lemma SchemeForInjective(c: string, d: string)
    requires SchemeFor(c) == SchemeFor(d)
    ensures c == d
  {
    var a := "bg-" + c + "-100";
    var b := "bg-" + d + "-100";
    assert |a| == |b|;
    forall i | 0 <= i < |c|
      ensures c[i] == d[i]
    {
      assert a[3 + i] == c[i];
      assert b[3 + i] == d[i];
    }
  }
}
