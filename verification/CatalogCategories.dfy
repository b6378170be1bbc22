/** Category names that mean the same, and the category filter of the program and of the database:
    packages/decorator-agent/src/catalog.ts, livi-server/src/catalog-postgres.ts. */
module CatalogCategories {
  import opened Outcomes
  import opened Sequences
  import opened CatalogText
  import opened WhiteSpace
  import opened CatalogAliases

  /** `first` is the canonical name; the order of the other names is not kept. */
  datatype Categories = Categories(first: string, others: set<string>)
  {
    predicate Has(name: string) { name == first || name in others }
  }

  predicate IsDash(c: char) { c == ' ' || c == '-' }

  function Key(text: string): string { Runs(Lower(text), IsDash, '_') }

  function Canonical(key: string): string
  {
    if key in ALIASES then ALIASES[key]
    else if Singular(key) in ALIASES then ALIASES[Singular(key)]
    else Singular(key)
  }

  function EquivalentCategories(category: string): Categories
  {
    var canonical := Canonical(Key(Trim(category)));
    Categories(canonical, set alias | alias in ALIASES && ALIASES[alias] == canonical)
  }

  function AsText(value: Option<string>): Option<string>
  {
    if value.None? || Trim(value.value) == [] then None else Some(Trim(value.value))
  }

  /** The filter of the program, on a product. */
  predicate CategoryMatches(category: Option<string>, wanted: Categories)
  {
    && category.Some? && category.value != []
    && var canonical := EquivalentCategories(category.value).first;
    canonical != [] && wanted.Has(canonical)
  }

  /** The filter of the database, on a column. */
  predicate SqlCategoryMatches(column: Option<string>, wanted: Categories)
  {
    && column.Some? && BTrim(column.value) != []
    && var key := Key(BTrim(column.value));
    wanted.Has(key) || wanted.Has(Singular(key))
  }

  // ---- Keys ---------------------------------------------------------------------------

  predicate IsKeyChar(c: char) { !IsDash(c) && LowerChar(c) == c }

  lemma {:induction false} RunsKeyed(s: string)
    requires forall c | c in s :: LowerChar(c) == c
    ensures All(Runs(s, IsDash, '_'), IsKeyChar)
    ensures s != [] && !IsSpace(s[0]) ==> Runs(s, IsDash, '_') != [] && !IsSpace(Runs(s, IsDash, '_')[0])
    decreases |s|
  {
    if s != [] {
      if IsDash(s[0]) {
        var front := DropFrontParts(s[1..], IsDash);
        assert forall c | c in DropFront(s[1..], IsDash) :: c in front + DropFront(s[1..], IsDash);
        RunsKeyed(DropFront(s[1..], IsDash));
      } else {
        RunsKeyed(s[1..]);
      }
    }
  }

  lemma {:induction false} KeyForm(text: string)
    ensures All(Key(text), IsKeyChar)
    ensures text != [] && !IsSpace(text[0]) ==> Key(text) != [] && !IsSpace(Key(text)[0])
  {
    RunsKeyed(Lower(text));
  }

  lemma {:induction false} KeyOfKey(key: string)
    requires All(key, IsKeyChar)
    ensures Key(key) == key
  {
    forall i | 0 <= i < |key| ensures LowerChar(key[i]) == key[i] {
      assert key[i] in key;
    }
    assert Lower(key) == key;
    NoRuns(key);
  }

  lemma {:induction false} NoRuns(s: string)
    requires forall c | c in s :: !IsDash(c)
    ensures Runs(s, IsDash, '_') == s
  {
    if s != [] {
      NoRuns(s[1..]);
      SplitFirst(s);
    }
  }

  lemma {:induction false} CanonicalIsNoAlias(key: string)
    ensures Canonical(key) !in ALIASES
  {
    if key in ALIASES {
      AliasesAreNotCanonical(key);
    } else if Singular(key) in ALIASES {
      AliasesAreNotCanonical(Singular(key));
    }
  }

  lemma {:induction false} PlainIsKey(s: string)
    requires All(s, IsPlain)
    ensures All(s, IsKeyChar) && forall c | c in s :: !IsSpace(c)
  {
  }

  lemma {:induction false} SingularForm(key: string)
    requires All(key, IsKeyChar)
    ensures All(Singular(key), IsKeyChar)
    ensures key != [] && !IsSpace(key[0]) && Singular(key) != [] ==> !IsSpace(Singular(key)[0])
  {
  }

  lemma {:induction false} AliasForm(key: string)
    requires key in ALIASES
    ensures All(ALIASES[key], IsKeyChar) && Bare(ALIASES[key], IsSpace)
  {
    AliasesArePlain(key);
    PlainIsKey(ALIASES[key]);
  }

  /** A canonical name is a key again. */
  lemma {:induction false} CanonicalForm(key: string)
    requires All(key, IsKeyChar)
    ensures All(Canonical(key), IsKeyChar)
    ensures key != [] && !IsSpace(key[0]) && Canonical(key) != [] ==> !IsSpace(Canonical(key)[0])
  {
    SingularForm(key);
    if key in ALIASES {
      AliasForm(key);
    } else if Singular(key) in ALIASES {
      AliasForm(Singular(key));
    }
  }

  lemma {:induction false} KeyShort(s: string)
    ensures |Runs(s, IsDash, '_')| <= |s|
    decreases |s|
  {
    if s != [] {
      KeyShort(if IsDash(s[0]) then DropFront(s[1..], IsDash) else s[1..]);
    }
  }

  /** The key of a text grows with what is added behind it. */
  lemma {:induction false} KeyGrows(a: string, b: string)
    requires b != [] && !IsDash(b[|b| - 1])
    ensures |Runs(a, IsDash, '_')| < |Runs(a + b, IsDash, '_')|
    decreases |a|
  {
    if a == [] {
      assert a + b == b;
    } else {
      assert (a + b)[1..] == a[1..] + b;
      if !IsDash(a[0]) {
        KeyGrows(a[1..], b);
      } else {
        DropFrontAll(a[1..], b, IsDash);
        DropFrontLast(b, IsDash);
        KeyGrows(DropFront(a[1..], IsDash), b);
      }
    }
  }

  lemma {:induction false} RunsEnd(s: string)
    requires s != [] && IsSpace(s[|s| - 1]) && !IsDash(s[|s| - 1])
    ensures var r := Runs(s, IsDash, '_'); r != [] && IsSpace(r[|r| - 1])
    decreases |s|
  {
    if s[1..] == [] {
      assert Runs(s, IsDash, '_') == [s[0]] + Runs([], IsDash, '_');
    } else if IsDash(s[0]) {
      DropFrontLast(s[1..], IsDash);
      RunsEnd(DropFront(s[1..], IsDash));
    } else {
      RunsEnd(s[1..]);
    }
  }

  lemma {:induction false} Unpadded(s: string)
    ensures [] + s + [] == s
  {
  }

  lemma {:induction false} TrimShort(name: string)
    requires !Bare(name, IsSpace)
    ensures |Trim(name)| < |name|
  {
    var front, back := StripParts(name, IsSpace);
    if front == [] && back == [] {
      Unpadded(Trim(name));
    }
  }

  /** A name with white space around it is the canonical name of no shorter text. */
  lemma {:induction false} CanonicalOfTrimmed(name: string)
    requires !Bare(name, IsSpace)
    ensures Canonical(Key(Trim(name))) != name
  {
    var key := Key(Trim(name));
    TrimShort(name);
    KeyShort(Lower(Trim(name)));
    if key in ALIASES {
      AliasForm(key);
    } else if Singular(key) in ALIASES {
      AliasForm(Singular(key));
    }
  }

  // ---- The filters --------------------------------------------------------------------

  /** The name that a request asks for starts with no white space. */
  lemma {:induction false} NameForm(category: string)
    ensures var name := EquivalentCategories(category).first;
            name !in ALIASES && (name != [] ==> !IsSpace(name[0])) && All(name, IsKeyChar)
  {
    var text := Trim(category);
    TrimIdempotent(category);
    KeyForm(text);
    CanonicalForm(Key(text));
    CanonicalIsNoAlias(Key(text));
    if text == [] && [] in ALIASES {
      AliasNamesAreBare([]);
    }
  }

  /** The program accepts a category exactly if its canonical name is the wanted one. */
  lemma {:induction false} ProgramAccepts(column: Option<string>, category: string)
    ensures CategoryMatches(AsText(column), EquivalentCategories(category))
            <==> column.Some? && Trim(column.value) != []
                 && Canonical(Key(Trim(column.value))) == EquivalentCategories(category).first != []
  {
    if column.Some? && Trim(column.value) != [] {
      TrimIdempotent(column.value);
      CanonicalIsNoAlias(Key(Trim(column.value)));
    }
  }

  predicate StandsFor(key: string, name: string) { key == name || (key in ALIASES && ALIASES[key] == name) }

  lemma {:induction false} DatabaseAccepts(column: Option<string>, category: string)
    requires OnlyBlanksAround(column)
    ensures SqlCategoryMatches(column, EquivalentCategories(category))
            <==> column.Some? && Trim(column.value) != []
                 && (StandsFor(Key(Trim(column.value)), EquivalentCategories(category).first)
                     || StandsFor(Singular(Key(Trim(column.value))), EquivalentCategories(category).first))
  {
  }

  lemma {:induction false} CanonicalStandsFor(key: string)
    ensures StandsFor(key, Canonical(key)) || StandsFor(Singular(key), Canonical(key))
  {
  }

  // ---- Columns with other white space around them ---------------------------------------

  /** Only blanks, if anything, surround the text. */
  predicate OnlyBlanksAround(column: Option<string>) { column.Some? ==> BTrim(column.value) == Trim(column.value) }

  lemma {:induction false} PaddedKey(text: string)
    requires BTrim(text) != Trim(text)
    ensures BTrim(text) != [] && Key(BTrim(text)) != [] && !Bare(Key(BTrim(text)), IsSpace)
  {
    TrimBTrim(text);
    var _, _ := StripParts(text, IsBlank);
    if IsSpace(BTrim(text)[0]) {
      KeyStart(BTrim(text));
    } else {
      RunsEnd(Lower(BTrim(text)));
    }
  }

  lemma {:induction false} PaddedIsNoAlias(key: string, name: string)
    requires key != [] && !Bare(key, IsSpace) && (name != [] ==> !IsSpace(name[0]))
    ensures key !in ALIASES && Singular(key) !in ALIASES && (Plural(key) ==> Singular(key) != name)
  {
    if key in ALIASES {
      AliasNamesAreBare(key);
    }
    if Singular(key) in ALIASES {
      AliasNamesAreBare(Singular(key));
    }
  }

  /** The database accepts a padded column only if its key is the wanted name, letter by letter. */
  lemma {:induction false} PaddedAccepts(text: string, category: string)
    requires BTrim(text) != Trim(text)
    ensures SqlCategoryMatches(Some(text), EquivalentCategories(category))
            <==> Key(BTrim(text)) == EquivalentCategories(category).first
  {
    PaddedKey(text);
    NameForm(category);
    PaddedIsNoAlias(Key(BTrim(text)), EquivalentCategories(category).first);
  }

  lemma {:induction false} FirstOfFront(text: string, front: string, rest: string)
    requires text == front + rest && front != []
    ensures text[0] in front
  {
    assert text[0] == front[0];
  }

  /** White space that follows a text, and what `trim` leaves of it. */
  lemma {:induction false} PaddedBehind(text: string) returns (back: string)
    requires text != [] && !IsSpace(text[0]) && Trim(text) != text
    ensures text == Trim(text) + back && back != [] && All(back, IsSpace) && back[|back| - 1] == text[|text| - 1]
  {
    var front, rest := StripParts(text, IsSpace);
    Associative(front, Trim(text), rest);
    if front != [] {
      FirstOfFront(text, front, Trim(text) + rest);
      assert false;
    }
    back := rest;
    assert [] + Trim(text) + back == Trim(text) + back;
    AppendNone(Trim(text));
  }

  lemma {:induction false} PaddedIsLonger(padded: string)
    requires padded != [] && !IsSpace(padded[0]) && Trim(padded) != padded && !IsBlank(padded[|padded| - 1])
    ensures |Key(Trim(padded))| < |Key(padded)|
  {
    var back := PaddedBehind(padded);
    LowerAppend(Trim(padded), back);
    LowerSpaces(back);
    KeyGrows(Lower(Trim(padded)), back);
  }

  lemma {:induction false} KeyStart(text: string)
    requires text != [] && IsSpace(text[0]) && !IsBlank(text[0])
    ensures Key(text) != [] && IsSpace(Key(text)[0])
  {
    assert Lower(text)[0] == text[0];
  }

  /** Such a column is not accepted by the program as well. */
  lemma {:induction false} PaddedDiffers(text: string, category: string)
    requires BTrim(text) != Trim(text) && Key(BTrim(text)) == EquivalentCategories(category).first
    ensures Canonical(Key(Trim(text))) != EquivalentCategories(category).first
  {
    var key := Key(Trim(text));
    PaddedKey(text);
    NameForm(category);
    TrimBTrim(text);
    var _, _ := StripParts(text, IsBlank);
    if IsSpace(BTrim(text)[0]) {
      KeyStart(BTrim(text));
    }
    PaddedIsLonger(BTrim(text));
    if key in ALIASES {
      AliasForm(key);
    } else if Singular(key) in ALIASES {
      AliasForm(Singular(key));
    }
  }


  // ---- Where the filters agree ----------------------------------------------------------

  /** The canonical names for which the database accepts nothing that the program refuses. */
  predicate Unambiguous(name: string) { name != [] && !Plural(name) && name + "s" !in ALIASES }

  lemma {:induction false} UnambiguousIsCanonical(key: string, name: string)
    requires Unambiguous(name) && name !in ALIASES
    requires StandsFor(key, name) || StandsFor(Singular(key), name)
    ensures Canonical(key) == name
  {
    if Plural(key) {
      SplitLast(key);
      if key in ALIASES && Singular(key) in ALIASES {
        PluralAliases(key);
      }
    }
  }

  ghost predicate FiltersAgree(column: Option<string>, wanted: Categories)
  {
    CategoryMatches(AsText(column), wanted) <==> SqlCategoryMatches(column, wanted)
  }

  /** A column where the two filters do the same with a request for `name`. Only blanks around it: whatever
      stands for the name has it as its canonical name. Other white space: neither filter accepts the column. */
  predicate SameCategory(column: Option<string>, name: string)
  {
    column.Some? ==>
      var key := Key(Trim(column.value));
      if OnlyBlanksAround(column) then
        Trim(column.value) != [] && (StandsFor(key, name) || StandsFor(Singular(key), name))
        ==> Canonical(key) == name != []
      else
        Key(BTrim(column.value)) != name && (Canonical(key) == name ==> name == [])
  }

  /** Column by column, the two filters agree exactly there. */
  lemma {:induction false} CategoryAgrees(column: Option<string>, category: string)
    ensures FiltersAgree(column, EquivalentCategories(category))
            <==> SameCategory(column, EquivalentCategories(category).first)
  {
    ProgramAccepts(column, category);
    if OnlyBlanksAround(column) {
      DatabaseAccepts(column, category);
      if column.Some? {
        CanonicalStandsFor(Key(Trim(column.value)));
      }
    } else {
      PaddedAccepts(column.value, category);
      EmptyIsCanonical();
      if Key(BTrim(column.value)) == EquivalentCategories(category).first {
        PaddedDiffers(column.value, category);
      }
    }
  }

  lemma {:induction false} EmptyIsCanonical()
    ensures Canonical(Key([])) == []
  {
    if [] in ALIASES {
      AliasNamesAreBare([]);
    }
  }

  lemma {:induction false} AgreeIfUnambiguous(column: Option<string>, category: string)
    requires OnlyBlanksAround(column) && Unambiguous(EquivalentCategories(category).first)
    ensures FiltersAgree(column, EquivalentCategories(category))
  {
    var name := EquivalentCategories(category).first;
    CategoryAgrees(column, category);
    NameForm(category);
    if column.Some? {
      var key := Key(Trim(column.value));
      if StandsFor(key, name) || StandsFor(Singular(key), name) {
        UnambiguousIsCanonical(key, name);
      }
    }
  }

  /** A key that ends in s, accepted by the database and not by the program. */
  lemma {:induction false} DifferOn(key: string, category: string)
    requires Plural(key) && All(key, IsKeyChar) && !IsSpace(key[0])
    requires StandsFor(key, EquivalentCategories(category).first)
             || StandsFor(Singular(key), EquivalentCategories(category).first)
    requires EquivalentCategories(category).first == [] || Canonical(key) != EquivalentCategories(category).first
    ensures OnlyBlanksAround(Some(key)) && !FiltersAgree(Some(key), EquivalentCategories(category))
  {
    StripBare(key, IsSpace);
    StripBare(key, IsBlank);
    KeyOfKey(key);
    ProgramAccepts(Some(key), category);
    DatabaseAccepts(Some(key), category);
  }

  lemma {:induction false} PluralForm(name: string)
    requires All(name, IsKeyChar) && (name != [] ==> !IsSpace(name[0]))
    ensures Plural(name + "s") && Singular(name + "s") == name && All(name + "s", IsKeyChar)
            && !IsSpace((name + "s")[0])
  {
    var plural := name + "s";
    assert plural[|plural| - 1] == 's' && plural[..|plural| - 1] == name;
    assert plural[0] == if name == [] then 's' else name[0];
    assert forall c | c in plural :: c in name || c == 's';
  }

  /** For any other name there is a category on which the two filters differ: the name itself, or its plural. */
  lemma {:induction false} DifferIfAmbiguous(category: string) returns (key: string)
    requires Trim(category) != [] && !Unambiguous(EquivalentCategories(category).first)
    ensures OnlyBlanksAround(Some(key)) && !FiltersAgree(Some(key), EquivalentCategories(category))
    ensures var name := EquivalentCategories(category).first; key == if Plural(name) then name else name + "s"
  {
    var name := EquivalentCategories(category).first;
    NameForm(category);
    key := if Plural(name) then name else name + "s";
    if Plural(name) {
      PluralIsNotCanonical(name);
    } else {
      PluralForm(name);
      if key in ALIASES {
        PluralIsNotItsAlias(key);
      }
    }
    DifferOn(key, category);
  }

  lemma {:induction false} PluralIsNotCanonical(name: string)
    requires Plural(name)
    ensures Canonical(name) != name
  {
    if name in ALIASES {
      AliasesAreSingular(name);
    } else if Singular(name) in ALIASES {
      AliasesAreSingular(Singular(name));
    }
  }

  /** On categories surrounded by nothing but blanks, the database filter accepts what the program accepts
      if and only if the canonical name is not empty, does not end in s, and its plural is not in the table. */
  lemma {:induction false} CategoryFiltersAgree(category: string)
    requires Trim(category) != []
    ensures (forall column | OnlyBlanksAround(column) :: FiltersAgree(column, EquivalentCategories(category)))
            <==> Unambiguous(EquivalentCategories(category).first)
  {
    if Unambiguous(EquivalentCategories(category).first) {
      forall column | OnlyBlanksAround(column) ensures FiltersAgree(column, EquivalentCategories(category)) {
        AgreeIfUnambiguous(column, category);
      }
    } else {
      var key := DifferIfAmbiguous(category);
      assert !FiltersAgree(Some(key), EquivalentCategories(category));
    }
  }

  /** Of the columns that the program accepts, the database loses exactly those with other white space around. */
  lemma {:induction false} DatabaseCoversProgram(column: Option<string>, category: string)
    requires CategoryMatches(AsText(column), EquivalentCategories(category))
    ensures SqlCategoryMatches(column, EquivalentCategories(category)) <==> OnlyBlanksAround(column)
  {
    ProgramAccepts(column, category);
    if OnlyBlanksAround(column) {
      DatabaseAccepts(column, category);
      CanonicalStandsFor(Key(Trim(column.value)));
    } else {
      PaddedAccepts(column.value, category);
      if Key(BTrim(column.value)) == EquivalentCategories(category).first {
        PaddedDiffers(column.value, category);
      }
    }
  }

  /** After a tab, every canonical name is lost. */
  lemma {:induction false} TabHidesCategory(category: string)
    requires var name := EquivalentCategories(category).first;
             Unambiguous(name) && Bare(name, IsSpace)
    ensures var wanted := EquivalentCategories(category);
            var column := Some("\t" + wanted.first);
            CategoryMatches(AsText(column), wanted) && !SqlCategoryMatches(column, wanted)
  {
    var name := EquivalentCategories(category).first;
    NameForm(category);
    AppendNone("\t" + name);
    StripIs("\t", name, [], IsSpace);
    StripBare("\t" + name, IsBlank);
    KeyOfKey(name);
    ProgramAccepts(Some("\t" + name), category);
    DatabaseCoversProgram(Some("\t" + name), category);
  }

  /** There is no request for which the two filters agree on every column. */
  lemma {:induction false} SomeColumnDiffers(category: string) returns (column: Option<string>)
    requires Trim(category) != []
    ensures !FiltersAgree(column, EquivalentCategories(category))
  {
    var name := EquivalentCategories(category).first;
    NameForm(category);
    if !Unambiguous(name) {
      var key := DifferIfAmbiguous(category);
      column := Some(key);
    } else if Bare(name, IsSpace) {
      TabHidesCategory(category);
      column := Some("\t" + name);
    } else {
      column := Some(name);
      assert name[|name| - 1] in name;
      StripBare(name, IsBlank);
      var _, _ := StripParts(name, IsSpace);
      KeyOfKey(name);
      CategoryAgrees(column, category);
    }
  }

  /** A request rebuilt from the canonical name asks for the same categories if and only if that name is a
      trimmed text that does not end in s. */
  lemma {:induction false} CanonicalIsStable(category: string)
    requires Trim(category) != []
    ensures var name := EquivalentCategories(category).first;
            (Trim(name) != [] && EquivalentCategories(Trim(name)).first == name)
            <==> (name != [] && Bare(name, IsSpace) && !Plural(name))
  {
    var name := EquivalentCategories(category).first;
    NameForm(category);
    TrimIdempotent(name);
    KeyForm(Trim(name));
    if Bare(name, IsSpace) {
      StripBare(name, IsSpace);
      KeyOfKey(name);
      if Plural(name) {
        PluralIsNotCanonical(name);
      }
    } else {
      CanonicalOfTrimmed(name);
    }
  }

  // ---- Examples -----------------------------------------------------------------------

  lemma {:induction false} PlainName(name: string)
    requires name != [] && All(name, IsPlain)
    ensures Trim(name) == name == BTrim(name) && Key(name) == name
    ensures EquivalentCategories(name).first == Canonical(name)
  {
    PlainIsKey(name);
    StripBare(name, IsSpace);
    StripBare(name, IsBlank);
    KeyOfKey(name);
  }

  /** A search for "mattress", saved and read again, is a search for "mattre". */
  lemma {:induction false} MattressIsNotStable()
    ensures EquivalentCategories("mattress").first == "mattres"
    ensures EquivalentCategories(Trim("mattres")).first == "mattre"
  {
    PlainName("mattress");
    PlainName("mattres");
    MattressIsNoAlias();
  }

  lemma {:induction false} MattressIsNoAlias()
    ensures Canonical("mattress") == "mattres" && Canonical("mattres") == "mattre"
  {
    assert Singular("mattress") == "mattres" && Singular("mattres") == "mattre";
  }

  /** A search for "sofa" finds a tab and "sofa" in the program and not in the database. */
  lemma {:induction false} TabHidesSofa()
    ensures var column, wanted := Some("\tsofa"), EquivalentCategories("sofa");
            CategoryMatches(AsText(column), wanted) && !SqlCategoryMatches(column, wanted)
  {
    SofaIsUnambiguous();
    TabHidesName("sofa", "\tsofa");
  }

  lemma {:induction false} TabHidesName(name: string, column: string)
    requires All(name, IsPlain) && Canonical(name) == name && Unambiguous(name) && column == "\t" + name
    ensures CategoryMatches(AsText(Some(column)), EquivalentCategories(name))
    ensures !SqlCategoryMatches(Some(column), EquivalentCategories(name))
  {
    PlainName(name);
    PlainIsKey(name);
    TabHidesCategory(name);
  }

  lemma {:induction false} SofaIsUnambiguous()
    ensures All("sofa", IsPlain)
    ensures Canonical("sofa") == "sofa" && Unambiguous("sofa")
  {
    Targets1AreNoAliases("sofa");
    assert "sofa" + "s" == "sofas";
  }

  /** A search for "couche" finds "couches" in the database and not in the program. */
  lemma {:induction false} CouchesAreNotCouche()
    ensures !FiltersAgree(Some("couches"), EquivalentCategories("couche"))
  {
    PlainName("couche");
    CoucheIsAmbiguous();
    var key := DifferIfAmbiguous("couche");
  }

  lemma {:induction false} CoucheIsAmbiguous()
    ensures Canonical("couche") == "couche" && !Unambiguous("couche")
    ensures !Plural("couche") && "couche" + "s" == "couches"
  {
    SingularsAreNoAliases("couche");
    assert "couche" + "s" == "couches";
    assert !Plural("couche") && Singular("couche") == "couche";
    assert "couches" in ALIASES;
  }
}
