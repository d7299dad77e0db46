/** The skills section: a fixed list of skills, each tagged with a category, shown as one card
    per category listing that category's skills and a count such as "4 skills". */
module Skills {
  import opened Numerals

  /** A skill and the id of its category. */
  datatype Skill = Skill(name: string, category: string)

  /** A category card's id and title; its icon and colours are presentation only. */
  datatype Category = Category(id: string, name: string)

  const Languages: seq<Skill> := [
    Skill("Java", "language"),
    Skill("Python", "language"),
    Skill("C/C++", "language"),
    Skill("SQL (Postgres)", "language"),
    Skill("JavaScript", "language"),
    Skill("TypeScript", "language"),
    Skill("HTML/CSS", "language"),
    Skill("Lua", "language"),
    Skill("Embedded C", "language")
  ]

  const Frameworks: seq<Skill> := [
    Skill("React", "framework"),
    Skill("Node.js", "framework"),
    Skill("Django", "framework"),
    Skill("FastAPI", "framework")
  ]

  const Tools: seq<Skill> := [
    Skill("Git", "tools"),
    Skill("Docker", "tools"),
    Skill("Excel", "tools"),
    Skill("Jupyter", "tools"),
    Skill("MongoDB", "tools"),
    Skill("Anaconda", "tools"),
    Skill("WSL", "tools"),
    Skill("Nvim", "tools"),
    Skill("Matlab", "tools"),
    Skill("AWS", "tools"),
    Skill("LLAMA", "tools"),
    Skill("Arduino", "tools"),
    Skill("Raspberry Pi", "tools")
  ]

  const Libraries: seq<Skill> := [
    Skill("Pandas", "library"),
    Skill("NumPy", "library"),
    Skill("Matplotlib", "library"),
    Skill("PyTorch", "library"),
    Skill("scikit-learn", "library"),
    Skill("TensorFlow", "library")
  ]

  /** The skill list in its order on the page: languages, frameworks, tools, libraries. */
  const AllSkills: seq<Skill> := Languages + Frameworks + Tools + Libraries

  const Categories: seq<Category> := [
    Category("language", "Languages"),
    Category("framework", "Frameworks"),
    Category("tools", "Developer Tools"),
    Category("library", "Libraries")
  ]

  // ---------------------------------------------------------------------------------------
  // Grouping

  /** The skills of one category, in list order: the `filter` each card runs. */
  function InCategory(ss: seq<Skill>, id: string): (r: seq<Skill>)
    ensures |r| <= |ss|
    ensures forall k :: 0 <= k < |r| ==> r[k].category == id
  {
    if ss == [] then []
    else (if ss[0].category == id then [ss[0]] else []) + InCategory(ss[1..], id)
  }

  /** A skill is on a card exactly when it is in the list with that card's category. */
  lemma {:induction false} InCategoryMembers(ss: seq<Skill>, id: string, s: Skill)
    ensures s in InCategory(ss, id) <==> s in ss && s.category == id
  {
    if ss != [] {
      InCategoryMembers(ss[1..], id, s);
      assert ss == [ss[0]] + ss[1..];
    }
  }

  /** Filtering a concatenation filters each part, so the card keeps the list's order: a
      skill listed before another is shown before it. */
  lemma {:induction false} InCategoryAppend(a: seq<Skill>, b: seq<Skill>, id: string)
    ensures InCategory(a + b, id) == InCategory(a, id) + InCategory(b, id)
  {
    if a == [] {
      assert a + b == b;
    } else {
      var x, rest := a[0], a[1..];
      assert a == [x] + rest;
      assert a + b == [x] + (rest + b);
      var head := if x.category == id then [x] else [];
      var r, q := InCategory(rest, id), InCategory(b, id);
      InCategoryCons(x, rest + b, id);
      InCategoryCons(x, rest, id);
      InCategoryAppend(rest, b, id);
      assert head + (r + q) == (head + r) + q;
    }
  }

  /** The filter of a list with a first skill. */
  lemma InCategoryCons(x: Skill, rest: seq<Skill>, id: string)
    ensures InCategory([x] + rest, id) == (if x.category == id then [x] else []) + InCategory(rest, id)
  {
    assert ([x] + rest)[1..] == rest;
  }

  /** A single skill lands on its own card and on no other. */
  lemma InCategorySingle(s: Skill, id: string)
    ensures InCategory([s], id) == if s.category == id then [s] else []
  {
    assert [s][1..] == [];
  }

  /** How many of the ids equal `c`. */
  function Occurrences(ids: seq<string>, c: string): nat
  {
    if ids == [] then 0 else (if ids[0] == c then 1 else 0) + Occurrences(ids[1..], c)
  }

  /** The total number of skills on the cards with ids `ids`. */
  function CardTotal(ss: seq<Skill>, ids: seq<string>): nat
  {
    if ids == [] then 0 else |InCategory(ss, ids[0])| + CardTotal(ss, ids[1..])
  }

  predicate Distinct(ids: seq<string>)
  {
    forall i, j :: 0 <= i < j < |ids| ==> ids[i] != ids[j]
  }

  predicate Covered(ss: seq<Skill>, ids: seq<string>)
  {
    forall k :: 0 <= k < |ss| ==> ss[k].category in ids
  }

  lemma {:induction false} OccursOnce(ids: seq<string>, c: string)
    requires Distinct(ids) && c in ids
    ensures Occurrences(ids, c) == 1
  {
    if ids[0] == c {
      OccursNever(ids[1..], c);
    } else {
      OccursOnce(ids[1..], c);
    }
  }

  lemma {:induction false} OccursNever(ids: seq<string>, c: string)
    requires c !in ids
    ensures Occurrences(ids, c) == 0
  {
    if ids != [] {
      OccursNever(ids[1..], c);
    }
  }

  lemma {:induction false} CardTotalCons(s: Skill, ss: seq<Skill>, ids: seq<string>)
    ensures CardTotal([s] + ss, ids) == Occurrences(ids, s.category) + CardTotal(ss, ids)
  {
    if ids != [] {
      CardTotalCons(s, ss, ids[1..]);
      InCategoryAppend([s], ss, ids[0]);
      InCategorySingle(s, ids[0]);
    }
  }

  /** When every skill's category is one of the card ids and the ids are distinct, each skill
      is shown on exactly one card, so the card counts add up to the length of the list. */
  lemma {:induction false} CardsPartition(ss: seq<Skill>, ids: seq<string>)
    requires Distinct(ids) && Covered(ss, ids)
    ensures CardTotal(ss, ids) == |ss|
  {
    if ss != [] {
      assert ss == [ss[0]] + ss[1..];
      CardTotalCons(ss[0], ss[1..], ids);
      assert ss[0].category in ids;
      OccursOnce(ids, ss[0].category);
      assert Covered(ss[1..], ids) by {
        forall k | 0 <= k < |ss| - 1
          ensures ss[1..][k].category in ids
        {
          assert ss[1..][k] == ss[k + 1];
        }
      }
      CardsPartition(ss[1..], ids);
    } else {
      CardTotalEmpty(ids);
    }
  }

  lemma {:induction false} CardTotalEmpty(ids: seq<string>)
    ensures CardTotal([], ids) == 0
  {
    if ids != [] {
      CardTotalEmpty(ids[1..]);
    }
  }

  /** A group whose skills all have category `id` is kept whole. */
  lemma {:induction false} InCategoryAll(ss: seq<Skill>, id: string)
    requires forall k :: 0 <= k < |ss| ==> ss[k].category == id
    ensures InCategory(ss, id) == ss
  {
    if ss != [] {
      InCategoryAll(ss[1..], id);
    }
  }

  /** A group with no skill of category `id` contributes nothing. */
  lemma {:induction false} InCategoryNone(ss: seq<Skill>, id: string)
    requires forall k :: 0 <= k < |ss| ==> ss[k].category != id
    ensures InCategory(ss, id) == []
  {
    if ss != [] {
      InCategoryNone(ss[1..], id);
    }
  }

  function Ids(cs: seq<Category>): (ids: seq<string>)
    ensures |ids| == |cs| && forall k :: 0 <= k < |cs| ==> ids[k] == cs[k].id
  {
    seq(|cs|, k requires 0 <= k < |cs| => cs[k].id)
  }

  /** A card whose group sits between skills of other categories shows that group and
      nothing else. */
  lemma {:induction false} CardOf(before: seq<Skill>, group: seq<Skill>, after: seq<Skill>, id: string)
    requires forall k :: 0 <= k < |before| ==> before[k].category != id
    requires forall k :: 0 <= k < |group| ==> group[k].category == id
    requires forall k :: 0 <= k < |after| ==> after[k].category != id
    ensures InCategory(before + group + after, id) == group
  {
    InCategoryAppend(before + group, after, id);
    InCategoryAppend(before, group, id);
    InCategoryNone(before, id);
    InCategoryAll(group, id);
    InCategoryNone(after, id);
  }

  /** Each card of the site shows exactly its group, in the order written. */
  lemma LanguagesCard()
    ensures InCategory(AllSkills, "language") == Languages
  {
    assert AllSkills == [] + Languages + (Frameworks + Tools + Libraries);
    CardOf([], Languages, Frameworks + Tools + Libraries, "language");
  }

  lemma FrameworksCard()
    ensures InCategory(AllSkills, "framework") == Frameworks
  {
    assert AllSkills == Languages + Frameworks + (Tools + Libraries);
    CardOf(Languages, Frameworks, Tools + Libraries, "framework");
  }

  lemma ToolsCard()
    ensures InCategory(AllSkills, "tools") == Tools
  {
    CardOf(Languages + Frameworks, Tools, Libraries, "tools");
  }

  lemma LibrariesCard()
    ensures InCategory(AllSkills, "library") == Libraries
  {
    assert AllSkills == Languages + Frameworks + Tools + Libraries + [];
    CardOf(Languages + Frameworks + Tools, Libraries, [], "library");
  }

  /** The site's own data: four distinct category ids, every skill under one of them, 9
      languages, 4 frameworks, 13 tools and 6 libraries, 32 in all. */
  lemma SiteCards()
    ensures |AllSkills| == 32
    ensures Distinct(Ids(Categories)) && Covered(AllSkills, Ids(Categories))
    ensures |InCategory(AllSkills, "language")| == 9
    ensures |InCategory(AllSkills, "framework")| == 4
    ensures |InCategory(AllSkills, "tools")| == 13
    ensures |InCategory(AllSkills, "library")| == 6
    ensures CardTotal(AllSkills, Ids(Categories)) == 32
  {
    var ids := Ids(Categories);
    assert ids == ["language", "framework", "tools", "library"];
    LanguagesCard();
    FrameworksCard();
    ToolsCard();
    LibrariesCard();
    assert Covered(AllSkills, ids);
    CardsPartition(AllSkills, ids);
  }

  /** No two skills of a group share a name. */
  predicate NamesDistinct(ss: seq<Skill>)
  {
    forall i, j :: 0 <= i < j < |ss| ==> ss[i].name != ss[j].name
  }

  /** No name of `a` is a name of `b`. */
  predicate NamesDisjoint(a: seq<Skill>, b: seq<Skill>)
  {
    forall i, j :: 0 <= i < |a| && 0 <= j < |b| ==> a[i].name != b[j].name
  }

  /** Two groups with distinct names and no name in common join into a group with distinct
      names. */
  lemma DistinctJoin(a: seq<Skill>, b: seq<Skill>)
    requires NamesDistinct(a) && NamesDistinct(b) && NamesDisjoint(a, b)
    ensures NamesDistinct(a + b)
  {
    forall i, j | 0 <= i < j < |a + b|
      ensures (a + b)[i].name != (a + b)[j].name
    {
      if j < |a| {
        assert (a + b)[i] == a[i] && (a + b)[j] == a[j];
      } else if i < |a| {
        assert (a + b)[i] == a[i] && (a + b)[j] == b[j - |a|];
      } else {
        assert (a + b)[i] == b[i - |a|] && (a + b)[j] == b[j - |a|];
      }
    }
  }

  /** No two skills of a group share a name. The cards show exactly these groups
      (`LanguagesCard` and the three after it), so the names work as keys within a card. */
  lemma LanguageNamesDistinct()
    ensures NamesDistinct(Languages)
  {
    LanguagesFrontDistinct();
    LanguagesBackDistinct();
    LanguagesHalvesDisjoint();
    DistinctJoin(Languages[..4], Languages[4..]);
    assert Languages == Languages[..4] + Languages[4..];
  }

  lemma LanguagesFrontDistinct()
    ensures NamesDistinct(Languages[..4])
  {
  }

  lemma LanguagesBackDistinct()
    ensures NamesDistinct(Languages[4..])
  {
  }

  lemma LanguagesHalvesDisjoint()
    ensures NamesDisjoint(Languages[..4], Languages[4..])
  {
  }

  lemma FrameworkNamesDistinct()
    ensures NamesDistinct(Frameworks)
  {
  }

  lemma ToolNamesDistinct()
    ensures NamesDistinct(Tools)
  {
    ToolsFrontDistinct();
    ToolsBackDistinct();
    ToolsHalvesDisjoint();
    DistinctJoin(Tools[..6], Tools[6..]);
    assert Tools == Tools[..6] + Tools[6..];
  }

  lemma ToolsFrontDistinct()
    ensures NamesDistinct(Tools[..6])
  {
  }

  lemma ToolsBackDistinct()
    ensures NamesDistinct(Tools[6..])
  {
  }

  lemma ToolsHalvesDisjoint()
    ensures NamesDisjoint(Tools[..6], Tools[6..])
  {
  }

  lemma LibraryNamesDistinct()
    ensures NamesDistinct(Libraries)
  {
  }

  // ---------------------------------------------------------------------------------------
  // The count badge

  /** The noun after the count. */
  function Noun(n: nat): (w: string)
    ensures w == "skill" <==> n == 1
    ensures w == "skills" <==> n != 1
  {
    if n == 1 then "skill" else "skills"
  }

  /** The badge under each card: the count, a space and the noun. */
  function CountLabel(n: nat): string
  {
    Decimal(n) + " " + Noun(n)
  }

  /** The badge can be read back: its digits up to the space give the count, and the rest is
      "skill" exactly when the count is one. */
  lemma CountLabelReadsBack(n: nat)
    ensures var l := CountLabel(n);
      var d := |Decimal(n)|;
      && d < |l| && l[d] == ' '
      && l[..d] == Decimal(n) && ValueOf(Decimal(n)) == n
      && (l[d + 1..] == "skill" <==> n == 1)
  {
    var digits, noun := Decimal(n), Noun(n);
    var l := CountLabel(n);
    assert l == digits + (" " + noun);
    assert l[..|digits|] == digits;
    assert l[|digits| + 1..] == noun;
    ValueOfDecimal(n);
  }

  lemma LabelScenario()
    ensures CountLabel(1) == "1 skill"
    ensures CountLabel(13) == "13 skills"
  {
  }
}
