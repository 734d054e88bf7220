/**
 * The order of the overview labels: no label is a prefix of an earlier one,
 * so under first-match-wins every label is the one chosen for some line.
 */
module LabelOrder {
  import opened Wrappers
  import opened PyStrings
  import opened Segmenter

  /** A position below the length of `p` at which `s` ends or differs from `p`. */
  lemma Differ(s: string, p: string, k: nat)
    requires k < |p| && (k >= |s| || s[k] != p[k])
    ensures !StartsWith(s, p)
  {
    if |p| <= |s| {
      assert s[..|p|][k] != p[k];
    }
  }

  lemma HeadsDiffer()
    ensures forall s: string, p: string {:trigger StartsWith(s, p)} ::
      s != [] && p != [] && s[0] != p[0] ==> !StartsWith(s, p)
  {
    forall s: string, p: string | s != [] && p != [] && s[0] != p[0]
      ensures !StartsWith(s, p)
    {
      Differ(s, p, 0);
    }
  }

  predicate NotShadowed(j: nat)
    requires j < |LineKeys|
  {
    forall i :: 0 <= i < j ==> !StartsWith(LineKeys[j], LineKeys[i])
  }

  // One lemma per label: labels with another first character are told apart by
  // HeadsDiffer; for the others the first differing position is given.

  lemma NotShadowed1()
    ensures NotShadowed(1)
  {
    HeadsDiffer();
    Differ("overiew:", "overview:", 4);
  }

  lemma NotShadowed2()
    ensures NotShadowed(2)
  {
    HeadsDiffer();
  }

  lemma NotShadowed3()
    ensures NotShadowed(3)
  {
    HeadsDiffer();
    Differ("-about-", "- overview -", 1);
  }

  lemma NotShadowed4()
    ensures NotShadowed(4)
  {
    HeadsDiffer();
    Differ("overview :", "overview:", 8);
    Differ("overview :", "overiew:", 4);
  }

  lemma NotShadowed5()
    ensures NotShadowed(5)
  {
    HeadsDiffer();
  }

  lemma NotShadowed6()
    ensures NotShadowed(6)
  {
    HeadsDiffer();
  }

  lemma NotShadowed7()
    ensures NotShadowed(7)
  {
    HeadsDiffer();
  }

  lemma NotShadowed8()
    ensures NotShadowed(8)
  {
    HeadsDiffer();
  }

  lemma NotShadowed9()
    ensures NotShadowed(9)
  {
    HeadsDiffer();
    Differ("about this game collection:", "about the game:", 8);
  }

  lemma NotShadowed10()
    ensures NotShadowed(10)
  {
    HeadsDiffer();
    Differ("about this game:", "about the game:", 8);
    Differ("about this game:", "about this game collection:", 15);
  }

  lemma NotShadowed11()
    ensures NotShadowed(11)
  {
    HeadsDiffer();
    Differ("about the site:", "about the game:", 10);
    Differ("about the site:", "about this game collection:", 8);
    Differ("about the site:", "about this game:", 8);
  }

  lemma NotShadowed12()
    ensures NotShadowed(12)
  {
    HeadsDiffer();
    Differ("about:", "about the game:", 5);
    Differ("about:", "about this game collection:", 5);
    Differ("about:", "about this game:", 5);
    Differ("about:", "about the site:", 5);
  }

  lemma NotShadowed13()
    ensures NotShadowed(13)
  {
    HeadsDiffer();
  }

  lemma NotShadowed14()
    ensures NotShadowed(14)
  {
    HeadsDiffer();
    Differ("description:", "dev's intro:", 2);
  }

  lemma NotShadowed15()
    ensures NotShadowed(15)
  {
    HeadsDiffer();
  }

  lemma NotShadowed16()
    ensures NotShadowed(16)
  {
    HeadsDiffer();
  }

  lemma NotShadowed17()
    ensures NotShadowed(17)
  {
    HeadsDiffer();
  }

  lemma NotShadowed18()
    ensures NotShadowed(18)
  {
    HeadsDiffer();
  }

  lemma NotShadowed19()
    ensures NotShadowed(19)
  {
    HeadsDiffer();
    Differ("game guide:", "game info:", 5);
  }

  lemma NotShadowed20()
    ensures NotShadowed(20)
  {
    HeadsDiffer();
  }

  lemma NotShadowed21()
    ensures NotShadowed(21)
  {
    HeadsDiffer();
    Differ("synopsis:", "story overview: ", 1);
  }

  lemma NotShadowed22()
    ensures NotShadowed(22)
  {
    HeadsDiffer();
    Differ("=speechoice", "=about=", 1);
  }

  lemma NotShadowed23()
    ensures NotShadowed(23)
  {
    HeadsDiffer();
    Differ("synopsis", "story overview: ", 1);
    Differ("synopsis", "synopsis:", 8);
  }

  lemma NotShadowed24()
    ensures NotShadowed(24)
  {
    HeadsDiffer();
    Differ("description", "dev's intro:", 2);
    Differ("description", "description:", 11);
  }

  lemma NotShadowed25()
    ensures NotShadowed(25)
  {
    HeadsDiffer();
    Differ("story gameplay", "story overview: ", 6);
    Differ("story gameplay", "synopsis:", 1);
    Differ("story gameplay", "synopsis", 1);
  }

  lemma NotShadowed26()
    ensures NotShadowed(26)
  {
    HeadsDiffer();
  }

  lemma NotShadowed27()
    ensures NotShadowed(27)
  {
    HeadsDiffer();
    Differ("about this game", "about the game:", 8);
    Differ("about this game", "about this game collection:", 15);
    Differ("about this game", "about this game:", 15);
    Differ("about this game", "about the site:", 8);
    Differ("about this game", "about:", 5);
  }

  lemma NotShadowed28()
    ensures NotShadowed(28)
  {
    HeadsDiffer();
    Differ("about the game", "about the game:", 14);
    Differ("about the game", "about this game collection:", 8);
    Differ("about the game", "about this game:", 8);
    Differ("about the game", "about the site:", 10);
    Differ("about the game", "about:", 5);
    Differ("about the game", "about this game", 8);
  }

  lemma NotShadowed29()
    ensures NotShadowed(29)
  {
    HeadsDiffer();
  }

  lemma NotShadowed30()
    ensures NotShadowed(30)
  {
    HeadsDiffer();
  }

  lemma NotShadowed31()
    ensures NotShadowed(31)
  {
    HeadsDiffer();
    Differ("plot", "plot:", 4);
  }

  lemma NotShadowed32()
    ensures NotShadowed(32)
  {
    HeadsDiffer();
    Differ("about", "about the game:", 5);
    Differ("about", "about this game collection:", 5);
    Differ("about", "about this game:", 5);
    Differ("about", "about the site:", 5);
    Differ("about", "about:", 5);
    Differ("about", "about this game", 5);
    Differ("about", "about the game", 5);
  }

  lemma NotShadowed33()
    ensures NotShadowed(33)
  {
    HeadsDiffer();
    Differ("overview", "overview:", 8);
    Differ("overview", "overiew:", 4);
    Differ("overview", "overview :", 8);
  }

  lemma NotShadowed34()
    ensures NotShadowed(34)
  {
    HeadsDiffer();
    Differ("story:", "story overview: ", 5);
    Differ("story:", "synopsis:", 1);
    Differ("story:", "synopsis", 1);
    Differ("story:", "story gameplay", 5);
  }

  lemma NotShadowed35()
    ensures NotShadowed(35)
  {
    HeadsDiffer();
    Differ("story -", "story overview: ", 6);
    Differ("story -", "synopsis:", 1);
    Differ("story -", "synopsis", 1);
    Differ("story -", "story gameplay", 6);
    Differ("story -", "story:", 5);
  }

  lemma NotShadowed36()
    ensures NotShadowed(36)
  {
    HeadsDiffer();
    Differ("story", "story overview: ", 5);
    Differ("story", "synopsis:", 1);
    Differ("story", "synopsis", 1);
    Differ("story", "story gameplay", 5);
    Differ("story", "story:", 5);
    Differ("story", "story -", 5);
  }

  lemma {:induction false} KeyNotShadowed(j: nat)
    requires j < |LineKeys|
    ensures NotShadowed(j)
  {
    if j == 1 {
      NotShadowed1();
    } else if j == 2 {
      NotShadowed2();
    } else if j == 3 {
      NotShadowed3();
    } else if j == 4 {
      NotShadowed4();
    } else if j == 5 {
      NotShadowed5();
    } else if j == 6 {
      NotShadowed6();
    } else if j == 7 {
      NotShadowed7();
    } else if j == 8 {
      NotShadowed8();
    } else if j == 9 {
      NotShadowed9();
    } else if j == 10 {
      NotShadowed10();
    } else if j == 11 {
      NotShadowed11();
    } else if j == 12 {
      NotShadowed12();
    } else if j == 13 {
      NotShadowed13();
    } else if j == 14 {
      NotShadowed14();
    } else if j == 15 {
      NotShadowed15();
    } else if j == 16 {
      NotShadowed16();
    } else if j == 17 {
      NotShadowed17();
    } else if j == 18 {
      NotShadowed18();
    } else if j == 19 {
      NotShadowed19();
    } else if j == 20 {
      NotShadowed20();
    } else if j == 21 {
      NotShadowed21();
    } else if j == 22 {
      NotShadowed22();
    } else if j == 23 {
      NotShadowed23();
    } else if j == 24 {
      NotShadowed24();
    } else if j == 25 {
      NotShadowed25();
    } else if j == 26 {
      NotShadowed26();
    } else if j == 27 {
      NotShadowed27();
    } else if j == 28 {
      NotShadowed28();
    } else if j == 29 {
      NotShadowed29();
    } else if j == 30 {
      NotShadowed30();
    } else if j == 31 {
      NotShadowed31();
    } else if j == 32 {
      NotShadowed32();
    } else if j == 33 {
      NotShadowed33();
    } else if j == 34 {
      NotShadowed34();
    } else if j == 35 {
      NotShadowed35();
    } else if j == 36 {
      NotShadowed36();
    }
  }

  /** No label has an earlier label as a prefix. */
  lemma LabelsUnshadowed()
    ensures forall i, j :: 0 <= i < j < |LineKeys| ==> !StartsWith(LineKeys[j], LineKeys[i])
  {
    forall i, j | 0 <= i < j < |LineKeys|
      ensures !StartsWith(LineKeys[j], LineKeys[i])
    {
      KeyNotShadowed(j);
    }
  }

  /** On a line that needs no casing and no stripping, folding changes nothing. */
  lemma FoldedIdentity(s: string)
    requires s != [] && !IsSpace(s[0]) && !IsSpace(s[|s| - 1])
    requires forall i :: 0 <= i < |s| ==> !IsUpper(s[i])
    ensures Folded(s) == s
  {
    assert Lower(s) == s;
    assert TrimStart(s) == s;
  }

  /** Every label but the one that ends in a space is already lower-case and stripped; in six groups. */
  lemma LabelsFold0()
    ensures forall j :: 0 <= j < 8 ==> Folded(LineKeys[j]) == LineKeys[j]
  {
    forall j | 0 <= j < 8 ensures Folded(LineKeys[j]) == LineKeys[j] {
      FoldedIdentity(LineKeys[j]);
    }
  }

  lemma LabelsFold8()
    ensures forall j :: 8 <= j < 10 ==> Folded(LineKeys[j]) == LineKeys[j]
  {
    forall j | 8 <= j < 10 ensures Folded(LineKeys[j]) == LineKeys[j] {
      FoldedIdentity(LineKeys[j]);
    }
  }

  lemma LabelsFold10()
    ensures forall j :: 10 <= j < 12 ==> Folded(LineKeys[j]) == LineKeys[j]
  {
    forall j | 10 <= j < 12 ensures Folded(LineKeys[j]) == LineKeys[j] {
      FoldedIdentity(LineKeys[j]);
    }
  }

  lemma LabelsFold12()
    ensures forall j :: 12 <= j < 19 ==> Folded(LineKeys[j]) == LineKeys[j]
  {
    forall j | 12 <= j < 19 ensures Folded(LineKeys[j]) == LineKeys[j] {
      FoldedIdentity(LineKeys[j]);
    }
  }

  lemma LabelsFold19()
    ensures forall j :: 19 <= j < 27 && j != 20 ==> Folded(LineKeys[j]) == LineKeys[j]
  {
    forall j | 19 <= j < 27 && j != 20 ensures Folded(LineKeys[j]) == LineKeys[j] {
      FoldedIdentity(LineKeys[j]);
    }
  }

  lemma LabelsFold27()
    ensures forall j :: 27 <= j < 37 ==> Folded(LineKeys[j]) == LineKeys[j]
  {
    forall j | 27 <= j < 37 ensures Folded(LineKeys[j]) == LineKeys[j] {
      FoldedIdentity(LineKeys[j]);
    }
  }

  lemma LabelFolds(j: nat)
    requires j < |LineKeys| && j != 20
    ensures Folded(LineKeys[j]) == LineKeys[j]
  {
    if j < 8 {
      LabelsFold0();
    } else if j < 10 {
      LabelsFold8();
    } else if j < 12 {
      LabelsFold10();
    } else if j < 19 {
      LabelsFold12();
    } else if j < 27 {
      LabelsFold19();
    } else {
      LabelsFold27();
    }
  }

  /**
   * Every label is selected for some line under first-match-wins: the line
   * that is the label itself, or, for label 20, whose trailing space any
   * line loses to the strip, the label followed by text.
   */
  lemma LabelReachable(j: nat)
    requires j < |LineKeys|
    ensures FirstKey(Folded(if j == 20 then LineKeys[20] + "x" else LineKeys[j])) == Some(j)
  {
    if j == 20 {
      Label20Reachable();
    } else {
      KeyNotShadowed(j);
      LabelFolds(j);
      assert StartsWith(LineKeys[j], LineKeys[j]);
    }
  }

  /** The line "story overview: x" selects label 20. */
  lemma Label20Reachable()
    ensures FirstKey(Folded(LineKeys[20] + "x")) == Some(20)
  {
    KeyNotShadowed(20);
    var line := LineKeys[20] + "x";
    FoldedIdentity(line);
    assert StartsWith(line, LineKeys[20]);
    forall i | 0 <= i < 20 ensures !StartsWith(line, LineKeys[i]) {
      Differ(line, LineKeys[i], 0);
    }
  }

  /** No line folds to label 20 itself: a folded line never ends in a space. */
  lemma Label20NeedsText(chunk: string)
    ensures Folded(chunk) != LineKeys[20]
  {
    StripSpec(Lower(chunk));
    assert LineKeys[20][|LineKeys[20]| - 1] == ' ';
  }

  /**
   * A line "About the game: X developer: Y" is captured whole: label 8 wins,
   * the remainder after it, marker included, becomes the overview, and the
   * developer is left as it was.
   */
  lemma AboutTheGameInline(s: Seg, chunk: string)
    requires s.phase == Scanning
    requires StartsWith(Folded(chunk), "about the game:") && |Folded(chunk)| > |LineKeys[8]| + 2
    ensures Step(s, chunk).Ok? && Step(s, chunk).value.phase == Captured
    ensures Step(s, chunk).value.fields.developer == s.fields.developer
    ensures var o := s.fields.overview; var rest := Strip(Drop(chunk, 16));
      Step(s, chunk).value.fields.overview == Some(if o.Some? && |o.value| > 3 then o.value + " " + rest else rest)
  {
    var low := Folded(chunk);
    assert low[0] == 'a';
    forall i | 0 <= i < 8 ensures !StartsWith(low, LineKeys[i]) {
      Differ(low, LineKeys[i], 0);
    }
    assert FirstKey(low) == Some(8);
    LabelWithText(s, chunk, 8);
  }
}
