/** The table of category names that stand for another one: packages/decorator-agent/src/catalog.ts. The facts
    about it that the category filters depend on. */
module CatalogAliases {
  import opened CatalogText
  import opened WhiteSpace

  const ALIASES: map<string, string> := map[
    "sectional_sofa" := "sectional", "couch" := "sofa", "couches" := "sofa", "armchair" := "accent_chair",
    "arm_chair" := "accent_chair", "chair" := "accent_chair", "lounge_chair" := "accent_chair", "area_rug" := "rug",
    "carpet" := "rug", "runner" := "rug", "end_table" := "side_table", "writing_desk" := "desk",
    "desk_lamp" := "table_lamp", "bookshelf" := "bookcase", "bookshelves" := "bookcase",
    "book_shelves" := "bookcase", "shelf" := "bookcase", "shelves" := "bookcase", "benches" := "bench",
    "footstool" := "ottoman", "console" := "media_unit", "media_console" := "media_unit",
    "media_storage" := "media_unit", "entertainment_unit" := "media_unit", "tv_console" := "media_unit",
    "television" := "tv", "television_stand" := "tv_stand", "mirror" := "wall_mirror",
    "standing_mirror" := "floor_mirror", "plant" := "planter", "pub_table" := "bar_table",
    "storage" := "storage_unit", "storage_organizer" := "storage_unit", "storage_piece" := "storage_unit",
    "storage_pieces" := "storage_unit"]

  predicate Plural(key: string) { key != [] && key[|key| - 1] == 's' }

  function Singular(key: string): string { if Plural(key) then key[..|key| - 1] else key }

  const TARGETS1: set<string> := {"sectional", "sofa", "accent_chair"}
  const TARGETS2: set<string> := {"rug", "side_table", "desk"}
  const TARGETS3: set<string> := {"table_lamp", "bookcase", "bench"}
  const TARGETS4: set<string> := {"ottoman", "media_unit", "tv"}
  const TARGETS5: set<string> := {"tv_stand", "wall_mirror", "floor_mirror"}
  const TARGETS6: set<string> := {"planter", "bar_table", "storage_unit"}

  lemma {:induction false} Targets1AreNoAliases(name: string)
    requires name in TARGETS1
    ensures name !in ALIASES
  {
  }

  lemma {:induction false} Targets2AreNoAliases(name: string)
    requires name in TARGETS2
    ensures name !in ALIASES
  {
  }

  lemma {:induction false} Targets3AreNoAliases(name: string)
    requires name in TARGETS3
    ensures name !in ALIASES
  {
  }

  lemma {:induction false} Targets4AreNoAliases(name: string)
    requires name in TARGETS4
    ensures name !in ALIASES
  {
  }

  lemma {:induction false} Targets5AreNoAliases(name: string)
    requires name in TARGETS5
    ensures name !in ALIASES
  {
  }

  lemma {:induction false} Targets6AreNoAliases(name: string)
    requires name in TARGETS6
    ensures name !in ALIASES
  {
  }

  lemma {:induction false} AliasTargets(key: string)
    requires key in ALIASES
    ensures ALIASES[key] in TARGETS1 + TARGETS2 + TARGETS3 + TARGETS4 + TARGETS5 + TARGETS6
  {
  }

  /** No name in the table stands for a name that is itself in the table. */
  lemma {:induction false} AliasesAreNotCanonical(key: string)
    requires key in ALIASES
    ensures ALIASES[key] !in ALIASES
  {
    AliasTargets(key);
    if ALIASES[key] in TARGETS1 {
      Targets1AreNoAliases(ALIASES[key]);
    }
    if ALIASES[key] in TARGETS2 {
      Targets2AreNoAliases(ALIASES[key]);
    }
    if ALIASES[key] in TARGETS3 {
      Targets3AreNoAliases(ALIASES[key]);
    }
    if ALIASES[key] in TARGETS4 {
      Targets4AreNoAliases(ALIASES[key]);
    }
    if ALIASES[key] in TARGETS5 {
      Targets5AreNoAliases(ALIASES[key]);
    }
    if ALIASES[key] in TARGETS6 {
      Targets6AreNoAliases(ALIASES[key]);
    }
  }

  lemma {:induction false} AliasesAreSingular(key: string)
    requires key in ALIASES
    ensures ALIASES[key] != [] && !Plural(ALIASES[key])
  {
  }

  lemma {:induction false} AliasNamesAreBare(key: string)
    requires key in ALIASES
    ensures key != [] && Bare(key, IsSpace)
  {
    AliasStart(key);
    AliasEnd(key);
  }

  lemma {:induction false} AliasStart(key: string)
    requires key in ALIASES
    ensures key != [] && 'a' <= key[0] <= 'z'
  {
  }

  lemma {:induction false} AliasEnd(key: string)
    requires key in ALIASES
    ensures key != [] && 'a' <= key[|key| - 1] <= 'z'
  {
  }

  predicate IsPlain(c: char) { 'a' <= c <= 'z' || c == '_' }

  lemma {:induction false} EarlyTargetsArePlain(name: string)
    requires name in TARGETS1 + TARGETS2 + TARGETS3
    ensures All(name, IsPlain)
  {
  }

  lemma {:induction false} LateTargetsArePlain(name: string)
    requires name in TARGETS4 + TARGETS5 + TARGETS6
    ensures All(name, IsPlain)
  {
  }

  lemma {:induction false} AliasesArePlain(key: string)
    requires key in ALIASES
    ensures All(ALIASES[key], IsPlain)
  {
    AliasTargets(key);
    if ALIASES[key] in TARGETS1 + TARGETS2 + TARGETS3 {
      EarlyTargetsArePlain(ALIASES[key]);
    } else {
      LateTargetsArePlain(ALIASES[key]);
    }
  }

  lemma {:induction false} PluralsAreListed(key: string)
    requires key in ALIASES && Plural(key)
    ensures key in {"couches", "bookshelves", "book_shelves", "shelves", "benches", "storage_pieces"}
  {
  }

  lemma {:induction false} SingularsAreNot()
    ensures Singular("couches") == "couche" && Singular("benches") == "benche" && Singular("shelves") == "shelve"
    ensures Singular("bookshelves") == "bookshelve" && Singular("book_shelves") == "book_shelve"
    ensures Singular("storage_pieces") == "storage_piece"
  {
  }

  lemma {:induction false} SingularsAreNoAliases(name: string)
    requires name in {"couche", "benche", "shelve"}
    ensures name !in ALIASES
  {
  }

  lemma {:induction false} ShelfSingularsAreNoAliases(name: string)
    requires name in {"bookshelve", "book_shelve"}
    ensures name !in ALIASES
  {
  }

  lemma {:induction false} StoragePieces()
    ensures "storage_piece" in ALIASES && "storage_pieces" in ALIASES
    ensures ALIASES["storage_piece"] == ALIASES["storage_pieces"]
  {
  }

  lemma {:induction false} PluralIsNotItsAlias(key: string)
    requires key in ALIASES && Plural(key)
    ensures ALIASES[key] != Singular(key)
  {
    PluralsAreListed(key);
    SingularsAreNot();
  }

  /** A plural in the table means what its singular means. */
  lemma {:induction false} PluralAliases(key: string)
    requires key in ALIASES && Plural(key) && Singular(key) in ALIASES
    ensures ALIASES[Singular(key)] == ALIASES[key]
  {
    PluralsAreListed(key);
    SingularsAreNot();
    StoragePieces();
    if key in {"couches", "benches", "shelves"} {
      SingularsAreNoAliases(Singular(key));
    } else if key != "storage_pieces" {
      ShelfSingularsAreNoAliases(Singular(key));
    }
  }
}
