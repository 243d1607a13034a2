/** The one-time migration of the legacy parameters to every account context
    (DoCompatibleProcess of ui_appearance_ability.cpp). */
module Migration {
  import opened Decimal
  import opened Accounts
  import opened SystemParameters
  import opened UiAppearance

  const FONT_SCAL_FOR_USER0 := "persist.sys.font_scale_for_user0"
  const FONT_Weight_SCAL_FOR_USER0 := "persist.sys.font_wght_scale_for_user0"
  const STANDARD_FONT_WEIGHT := "const.standard_font_weight"
  const FIRST_INITIALIZATION := "persist.uiAppearance.first_initialization"
  const BASE_SCALE := "1"
  const LIGHT := "light"

  /** isParamAllreadaySetted: a parameter that reads as something. */
  predicate IsSet(p: Params, name: string) { GetParameter(p, name, "").Some? }

  /** Gives every context that has no value under the prefix the value. */
  function Backfill(p: Params, contexts: seq<AccountContext>, prefix: string, value: string): Params {
    if contexts == [] then p
    else
      var n := |contexts| - 1;
      var done := Backfill(p, contexts[..n], prefix, value);
      var name := BuildUserParamKey(prefix, contexts[n]);
      if IsSet(done, name) then done else SetParameter(done, name, value)
  }

  /** The legacy value; with a non-empty default the read never fails, so the default migrates when the
      legacy parameter is unset. */
  function Legacy(p: Params, name: string, default: string): string
    requires default != ""
  {
    GetParameter(p, name, default).value
  }

  /** GetDefaultFontWeightScaleValue, where `valid` is the range check of the scale. */
  function DefaultFontWeight(p: Params, default: string, valid: string -> bool): string {
    match GetParameter(p, STANDARD_FONT_WEIGHT, default)
    case Some(v) => if valid(v) then v else default
    case None => default
  }

  function DoCompatibleProcess(p: Params, contexts: seq<AccountContext>, valid: string -> bool): Params {
    var p1 := Backfill(p, contexts, PERSIST_DARKMODE_KEY_FOR_NONE, Legacy(p, PERSIST_DARKMODE_KEY, LIGHT));
    var p2 := Backfill(p1, contexts, FONT_SCAL_FOR_NONE, Legacy(p1, FONT_SCAL_FOR_USER0, BASE_SCALE));
    var p3 := Backfill(
                p2, contexts, FONT_WEIGHT_SCAL_FOR_NONE,
                DefaultFontWeight(p2, Legacy(p2, FONT_Weight_SCAL_FOR_USER0, BASE_SCALE), valid));
    SetParameter(p3, FIRST_INITIALIZATION, "0")
  }

  // ---------- one loop ----------

  /** The loop over any list, repeats included: a set parameter keeps its value, an unset one of a listed
      context that can be written gets the value, and every other name is untouched. */
  lemma {:induction false} BackfillEffect(
    p: Params, contexts: seq<AccountContext>, prefix: string, value: string, name: string)
    requires value != ""
    ensures
      var q := Backfill(p, contexts, prefix, value);
      && q.refused == p.refused
      && (if (exists c :: c in contexts && name == BuildUserParamKey(prefix, c))
             && !IsSet(p, name) && name !in p.refused
          then name in q.values && q.values[name] == value
          else (name in q.values <==> name in p.values) && (name in p.values ==> q.values[name] == p.values[name]))
  {
    if contexts != [] {
      var n := |contexts| - 1;
      BackfillEffect(p, contexts[..n], prefix, value, name);
      assert forall c :: c in contexts <==> c in contexts[..n] || c == contexts[n];
    }
  }

  /** A second pass of the loop, with whatever value, changes nothing where all could be written. */
  lemma {:induction false} BackfillTwice(
    p: Params, contexts: seq<AccountContext>, prefix: string, value: string)
    requires forall c :: c in contexts ==>
               IsSet(p, BuildUserParamKey(prefix, c)) || BuildUserParamKey(prefix, c) in p.refused
    ensures Backfill(p, contexts, prefix, value) == p
  {
    if contexts != [] {
      BackfillTwice(p, contexts[..|contexts| - 1], prefix, value);
    }
  }

  // ---------- the names involved ----------

  const LEGACY_NAMES := [PERSIST_DARKMODE_KEY, FONT_SCAL_FOR_USER0, FONT_Weight_SCAL_FOR_USER0,
                         STANDARD_FONT_WEIGHT, FIRST_INITIALIZATION]

  /** The name splits into plain text and a numeric tail that does not begin with a dot. */
  ghost predicate Undotted(name: string) {
    exists head, tail ::
      name == head + tail && EndsPlain(head) && AllNumeric(tail) && (tail == "" || tail[0] != '.')
  }

  lemma UndottedByParts(head: string, tail: string)
    requires EndsPlain(head) && AllNumeric(tail) && (tail == "" || tail[0] != '.')
    ensures Undotted(head + tail)
  {
  }

  lemma LegacyIsUndotted(name: string)
    requires name in LEGACY_NAMES
    ensures Undotted(name)
  {
    var i :| 0 <= i < |LEGACY_NAMES| && LEGACY_NAMES[i] == name;
    var k := if i in {1, 2} then |name| - 1 else |name|;
    assert name == name[..k] + name[k..];
    UndottedByParts(name[..k], name[k..]);
  }

  lemma UndottedIsNoDottedKey(name: string, prefix: string, tail: string)
    requires Undotted(name) && DottedPrefix(prefix) && AllNumeric(tail)
    ensures name != prefix + tail
  {
    var head, rest :| name == head + rest && EndsPlain(head) && AllNumeric(rest) && (rest == "" || rest[0] != '.');
    var stem, dotted := prefix[..|prefix| - 1], "." + tail;
    assert prefix + tail == stem + dotted;
    if name == prefix + tail {
      NumericTailIsUnique(head, rest, stem, dotted);
      assert false;
    }
  }

  /** No legacy name is the per-context name of any context. */
  lemma LegacyIsNoContextName(name: string, prefix: string, context: AccountContext)
    requires Undotted(name) && DottedPrefix(prefix)
    ensures name != BuildUserParamKey(prefix, context)
  {
    ContextIsNumeric(context);
    UndottedIsNoDottedKey(name, prefix, ContextString(context));
  }

  // ---------- the whole migration ----------

  /** The loops for a list of prefixes and values, one after the other. */
  function RunLoops(p: Params, contexts: seq<AccountContext>, loops: seq<(string, string)>): Params {
    if loops == [] then p
    else
      var n := |loops| - 1;
      Backfill(RunLoops(p, contexts, loops[..n]), contexts, loops[n].0, loops[n].1)
  }

  predicate WellFormed(loops: seq<(string, string)>) {
    forall i :: 0 <= i < |loops| ==> DottedPrefix(loops[i].0) && loops[i].1 != ""
  }

  /** Whether a loop over this prefix writes the name of this prefix and context. */
  lemma WritesOwnNameOnly(contexts: seq<AccountContext>, looped: string, prefix: string, context: AccountContext)
    requires DottedPrefix(looped) && DottedPrefix(prefix)
    ensures (exists c :: c in contexts && BuildUserParamKey(prefix, context) == BuildUserParamKey(looped, c))
            <==> looped == prefix && context in contexts
  {
    forall c | c in contexts && BuildUserParamKey(prefix, context) == BuildUserParamKey(looped, c)
      ensures looped == prefix && c == context
    {
      DottedKeyIsInjective(prefix, context, looped, c);
    }
  }

  predicate Unchanged(p: Params, q: Params, name: string) {
    (name in q.values <==> name in p.values) && (name in p.values ==> q.values[name] == p.values[name])
  }

  lemma LoopEffect(
    p: Params, contexts: seq<AccountContext>, looped: string, value: string, prefix: string, context: AccountContext)
    requires DottedPrefix(looped) && DottedPrefix(prefix) && value != ""
    ensures
      var q := Backfill(p, contexts, looped, value);
      var name := BuildUserParamKey(prefix, context);
      && q.refused == p.refused
      && if looped == prefix && context in contexts && !IsSet(p, name) && name !in p.refused
         then name in q.values && q.values[name] == value
         else Unchanged(p, q, name)
  {
    BackfillEffect(p, contexts, looped, value, BuildUserParamKey(prefix, context));
    WritesOwnNameOnly(contexts, looped, prefix, context);
  }

  /** The value of the first loop over the prefix. */
  function Filling(loops: seq<(string, string)>, prefix: string): Option<string> {
    if loops == [] then None
    else
      var n := |loops| - 1;
      var earlier := Filling(loops[..n], prefix);
      if earlier.Some? then earlier else if loops[n].0 == prefix then Some(loops[n].1) else None
  }

  /** The name of a prefix and a context after all the loops. */
  lemma {:induction false} LoopsEffect(
    p: Params, contexts: seq<AccountContext>, loops: seq<(string, string)>, prefix: string, context: AccountContext)
    requires WellFormed(loops) && DottedPrefix(prefix)
    ensures
      var q := RunLoops(p, contexts, loops);
      var name := BuildUserParamKey(prefix, context);
      var filling := Filling(loops, prefix);
      && q.refused == p.refused
      && (filling.Some? ==> filling.value != "")
      && if context in contexts && !IsSet(p, name) && name !in p.refused && filling.Some?
         then name in q.values && q.values[name] == filling.value
         else Unchanged(p, q, name)
  {
    if loops != [] {
      var n := |loops| - 1;
      LoopsEffect(p, contexts, loops[..n], prefix, context);
      LoopEffect(RunLoops(p, contexts, loops[..n]), contexts, loops[n].0, loops[n].1, prefix, context);
    }
  }

  /** The loops leave every legacy name alone, so the later ones read the original legacy values. */
  lemma {:induction false} LoopsKeepLegacy(
    p: Params, contexts: seq<AccountContext>, loops: seq<(string, string)>, name: string)
    requires WellFormed(loops) && Undotted(name)
    ensures Unchanged(p, RunLoops(p, contexts, loops), name)
  {
    if loops != [] {
      var n := |loops| - 1;
      LoopsKeepLegacy(p, contexts, loops[..n], name);
      forall c | c in contexts
        ensures name != BuildUserParamKey(loops[n].0, c)
      {
        LegacyIsNoContextName(name, loops[n].0, c);
      }
      BackfillEffect(RunLoops(p, contexts, loops[..n]), contexts, loops[n].0, loops[n].1, name);
    }
  }

  const MIGRATED_PREFIXES := [PERSIST_DARKMODE_KEY_FOR_NONE, FONT_SCAL_FOR_NONE, FONT_WEIGHT_SCAL_FOR_NONE]

  /** The value the migration gives under a prefix. */
  function MigratedValue(p: Params, prefix: string, valid: string -> bool): (v: string)
    ensures v != ""
  {
    if prefix == PERSIST_DARKMODE_KEY_FOR_NONE then Legacy(p, PERSIST_DARKMODE_KEY, LIGHT)
    else if prefix == FONT_SCAL_FOR_NONE then Legacy(p, FONT_SCAL_FOR_USER0, BASE_SCALE)
    else DefaultFontWeight(p, Legacy(p, FONT_Weight_SCAL_FOR_USER0, BASE_SCALE), valid)
  }

  lemma PrefixesDiffer()
    ensures PERSIST_DARKMODE_KEY_FOR_NONE != FONT_SCAL_FOR_NONE
    ensures PERSIST_DARKMODE_KEY_FOR_NONE != FONT_WEIGHT_SCAL_FOR_NONE
    ensures FONT_SCAL_FOR_NONE != FONT_WEIGHT_SCAL_FOR_NONE
    ensures forall prefix :: prefix in MIGRATED_PREFIXES ==> DottedPrefix(prefix)
  {
    assert |PERSIST_DARKMODE_KEY_FOR_NONE| < |FONT_SCAL_FOR_NONE| < |FONT_WEIGHT_SCAL_FOR_NONE|;
    forall prefix | prefix in MIGRATED_PREFIXES
      ensures DottedPrefix(prefix)
    {
      assert prefix in PARAM_PREFIXES by {
        assert PARAM_PREFIXES[0] in PARAM_PREFIXES && PARAM_PREFIXES[1] in PARAM_PREFIXES;
        assert PARAM_PREFIXES[2] in PARAM_PREFIXES;
      }
      PrefixShape(prefix);
    }
  }

  function Loops(p: Params, valid: string -> bool): seq<(string, string)> {
    [(PERSIST_DARKMODE_KEY_FOR_NONE, MigratedValue(p, PERSIST_DARKMODE_KEY_FOR_NONE, valid)),
     (FONT_SCAL_FOR_NONE, MigratedValue(p, FONT_SCAL_FOR_NONE, valid)),
     (FONT_WEIGHT_SCAL_FOR_NONE, MigratedValue(p, FONT_WEIGHT_SCAL_FOR_NONE, valid))]
  }

  lemma LoopsAreWellFormed(p: Params, valid: string -> bool)
    ensures WellFormed(Loops(p, valid))
  {
    PrefixesDiffer();
    var names := MIGRATED_PREFIXES;
    assert names[0] in names && names[1] in names && names[2] in names;
  }

  lemma ThreeLoops(
    p: Params, contexts: seq<AccountContext>, a: (string, string), b: (string, string), c: (string, string))
    ensures RunLoops(p, contexts, [a]) == Backfill(p, contexts, a.0, a.1)
    ensures RunLoops(p, contexts, [a, b]) == Backfill(RunLoops(p, contexts, [a]), contexts, b.0, b.1)
    ensures RunLoops(p, contexts, [a, b, c]) == Backfill(RunLoops(p, contexts, [a, b]), contexts, c.0, c.1)
  {
    assert [a][..0] == [] && [a, b][..1] == [a] && [a, b, c][..2] == [a, b];
  }

  lemma LegacyStays(
    p: Params, contexts: seq<AccountContext>, loops: seq<(string, string)>, name: string, default: string)
    requires WellFormed(loops) && name in LEGACY_NAMES
    ensures GetParameter(RunLoops(p, contexts, loops), name, default) == GetParameter(p, name, default)
  {
    LegacyIsUndotted(name);
    LoopsKeepLegacy(p, contexts, loops, name);
  }

  lemma LegacyNames()
    ensures FONT_SCAL_FOR_USER0 in LEGACY_NAMES && FONT_Weight_SCAL_FOR_USER0 in LEGACY_NAMES
    ensures STANDARD_FONT_WEIGHT in LEGACY_NAMES && FIRST_INITIALIZATION in LEGACY_NAMES
  {
    var names := LEGACY_NAMES;
    assert names[1] in names && names[2] in names && names[3] in names && names[4] in names;
  }

  lemma MigrationInLoops(p: Params, contexts: seq<AccountContext>, valid: string -> bool)
    ensures DoCompatibleProcess(p, contexts, valid)
            == SetParameter(RunLoops(p, contexts, Loops(p, valid)), FIRST_INITIALIZATION, "0")
  {
    var loops := Loops(p, valid);
    var a, b, c := loops[0], loops[1], loops[2];
    LoopsAreWellFormed(p, valid);
    LegacyNames();
    ThreeLoops(p, contexts, a, b, c);
    PrefixesDiffer();
    LegacyStays(p, contexts, [a], FONT_SCAL_FOR_USER0, BASE_SCALE);
    LegacyStays(p, contexts, [a, b], FONT_Weight_SCAL_FOR_USER0, BASE_SCALE);
    LegacyStays(p, contexts, [a, b], STANDARD_FONT_WEIGHT, Legacy(p, FONT_Weight_SCAL_FOR_USER0, BASE_SCALE));
  }

  /** The migration never overwrites a per-context parameter that is set, gives every listed context
      without one the legacy value (for the font weight the validated standard default), and leaves the
      contexts not listed alone. */
  lemma MigrationFillsUnsetContexts(
    p: Params, contexts: seq<AccountContext>, valid: string -> bool, prefix: string, context: AccountContext)
    requires prefix in MIGRATED_PREFIXES
    ensures
      var q := DoCompatibleProcess(p, contexts, valid);
      var name := BuildUserParamKey(prefix, context);
      && q.refused == p.refused
      && if context in contexts && !IsSet(p, name) && name !in p.refused
         then name in q.values && q.values[name] == MigratedValue(p, prefix, valid)
         else Unchanged(p, q, name)
  {
    PrefixesDiffer();
    MigrationInLoops(p, contexts, valid);
    LoopsAreWellFormed(p, valid);
    LoopsEffect(p, contexts, Loops(p, valid), prefix, context);
    LegacyNames();
    LegacyIsUndotted(FIRST_INITIALIZATION);
    LegacyIsNoContextName(FIRST_INITIALIZATION, prefix, context);
    FilledByItsLoop(p, valid, prefix);
  }

  lemma FilledByItsLoop(p: Params, valid: string -> bool, prefix: string)
    requires prefix in MIGRATED_PREFIXES
    ensures Filling(Loops(p, valid), prefix) == Some(MigratedValue(p, prefix, valid))
  {
    var loops := Loops(p, valid);
    FirstFilling(loops[0], loops[1], loops[2], prefix);
    PrefixesDiffer();
    var i :| 0 <= i < |MIGRATED_PREFIXES| && MIGRATED_PREFIXES[i] == prefix;
  }

  lemma FirstFilling(a: (string, string), b: (string, string), c: (string, string), prefix: string)
    ensures Filling([a, b, c], prefix)
            == if a.0 == prefix then Some(a.1) else if b.0 == prefix then Some(b.1)
               else if c.0 == prefix then Some(c.1) else None
  {
    assert [a][..0] == [] && [a, b][..1] == [a] && [a, b, c][..2] == [a, b];
    assert Filling([a], prefix) == if a.0 == prefix then Some(a.1) else None;
    assert Filling([a, b], prefix) == if a.0 == prefix then Some(a.1) else if b.0 == prefix then Some(b.1) else None;
  }

  /** A parameter that holds nothing. */
  predicate Empty(p: Params, name: string) { name !in p.values || p.values[name] == "" }

  lemma LegacyIsStored(p: Params, name: string, default: string)
    requires default != ""
    ensures Legacy(p, name, default) == if Empty(p, name) then default else p.values[name]
  {
  }

  /** The colour stored for the device before the upgrade, or light, goes to every listed context that has none. */
  lemma MigratesStoredColour(p: Params, contexts: seq<AccountContext>, valid: string -> bool, context: AccountContext)
    requires context in contexts && Empty(p, DarkModeKey(context)) && DarkModeKey(context) !in p.refused
    ensures
      var q := DoCompatibleProcess(p, contexts, valid);
      && DarkModeKey(context) in q.values
      && q.values[DarkModeKey(context)]
         == if Empty(p, PERSIST_DARKMODE_KEY) then "light" else p.values[PERSIST_DARKMODE_KEY]
  {
    var prefixes := MIGRATED_PREFIXES;
    assert prefixes[0] in prefixes;
    MigrationFillsUnsetContexts(p, contexts, valid, PERSIST_DARKMODE_KEY_FOR_NONE, context);
  }

  /** The same for the font size, which is 1 otherwise. */
  lemma MigratesStoredFontSize(p: Params, contexts: seq<AccountContext>, valid: string -> bool, context: AccountContext)
    requires
      var name := BuildUserParamKey(FONT_SCAL_FOR_NONE, context);
      context in contexts && Empty(p, name) && name !in p.refused
    ensures
      var q := DoCompatibleProcess(p, contexts, valid);
      var name := BuildUserParamKey(FONT_SCAL_FOR_NONE, context);
      && name in q.values
      && q.values[name] == if Empty(p, FONT_SCAL_FOR_USER0) then "1" else p.values[FONT_SCAL_FOR_USER0]
  {
    var prefixes := MIGRATED_PREFIXES;
    assert prefixes[1] in prefixes;
    PrefixesDiffer();
    MigrationFillsUnsetContexts(p, contexts, valid, FONT_SCAL_FOR_NONE, context);
  }

  /** The font weight is the standard one of the device where that is stored and valid, else the stored weight,
      else 1. */
  lemma MigratesStandardFontWeight(
    p: Params, contexts: seq<AccountContext>, valid: string -> bool, context: AccountContext)
    requires
      var name := BuildUserParamKey(FONT_WEIGHT_SCAL_FOR_NONE, context);
      context in contexts && Empty(p, name) && name !in p.refused
    ensures
      var q := DoCompatibleProcess(p, contexts, valid);
      var name := BuildUserParamKey(FONT_WEIGHT_SCAL_FOR_NONE, context);
      && name in q.values
      && q.values[name]
         == if !Empty(p, STANDARD_FONT_WEIGHT) && valid(p.values[STANDARD_FONT_WEIGHT]) then
              p.values[STANDARD_FONT_WEIGHT]
            else if Empty(p, FONT_Weight_SCAL_FOR_USER0) then "1"
            else p.values[FONT_Weight_SCAL_FOR_USER0]
  {
    var prefixes := MIGRATED_PREFIXES;
    assert prefixes[2] in prefixes;
    PrefixesDiffer();
    MigrationFillsUnsetContexts(p, contexts, valid, FONT_WEIGHT_SCAL_FOR_NONE, context);
  }

  /** The migration is marked as done and touches nothing but the parameters of the listed contexts. */
  lemma MigrationTouchesNothingElse(
    p: Params, contexts: seq<AccountContext>, valid: string -> bool, name: string)
    requires forall prefix, c | prefix in MIGRATED_PREFIXES && c in contexts :: name != BuildUserParamKey(prefix, c)
    ensures
      var q := DoCompatibleProcess(p, contexts, valid);
      if name == FIRST_INITIALIZATION && name !in p.refused then name in q.values && q.values[name] == "0"
      else Unchanged(p, q, name)
  {
    MigrationInLoops(p, contexts, valid);
    LoopsAreWellFormed(p, valid);
    OnlyMigratedPrefixes(p, valid);
    LoopsKeepOthers(p, contexts, Loops(p, valid), name);
  }

  lemma {:induction false} LoopsKeepOthers(
    p: Params, contexts: seq<AccountContext>, loops: seq<(string, string)>, name: string)
    requires WellFormed(loops)
    requires forall i, c | 0 <= i < |loops| && c in contexts :: name != BuildUserParamKey(loops[i].0, c)
    ensures Unchanged(p, RunLoops(p, contexts, loops), name) && RunLoops(p, contexts, loops).refused == p.refused
  {
    if loops != [] {
      var n := |loops| - 1;
      LoopsKeepOthers(p, contexts, loops[..n], name);
      BackfillEffect(RunLoops(p, contexts, loops[..n]), contexts, loops[n].0, loops[n].1, name);
    }
  }

  lemma NothingUnsetAfterwards(p: Params, contexts: seq<AccountContext>, valid: string -> bool)
    ensures
      var q := DoCompatibleProcess(p, contexts, valid);
      forall prefix, c | prefix in MIGRATED_PREFIXES && c in contexts ::
        IsSet(q, BuildUserParamKey(prefix, c)) || BuildUserParamKey(prefix, c) in q.refused
  {
    var q := DoCompatibleProcess(p, contexts, valid);
    forall prefix, c | prefix in MIGRATED_PREFIXES && c in contexts
      ensures IsSet(q, BuildUserParamKey(prefix, c)) || BuildUserParamKey(prefix, c) in q.refused
    {
      MigrationFillsUnsetContexts(p, contexts, valid, prefix, c);
    }
  }

  /** Running the migration again over the same contexts changes nothing. */
  lemma MigrationIsIdempotent(p: Params, contexts: seq<AccountContext>, valid: string -> bool, again: string -> bool)
    ensures
      var q := DoCompatibleProcess(p, contexts, valid);
      DoCompatibleProcess(q, contexts, again) == q
  {
    var q := DoCompatibleProcess(p, contexts, valid);
    NothingUnsetAfterwards(p, contexts, valid);
    MigrationInLoops(p, contexts, valid);
    MigrationInLoops(q, contexts, again);
    OnlyMigratedPrefixes(q, again);
    LoopsChangeNothing(q, contexts, Loops(q, again));
  }

  lemma OnlyMigratedPrefixes(p: Params, valid: string -> bool)
    ensures forall i :: 0 <= i < |Loops(p, valid)| ==> Loops(p, valid)[i].0 in MIGRATED_PREFIXES
  {
    var names := MIGRATED_PREFIXES;
    assert names[0] in names && names[1] in names && names[2] in names;
  }

  lemma {:induction false} LoopsChangeNothing(q: Params, contexts: seq<AccountContext>, loops: seq<(string, string)>)
    requires forall i, c | 0 <= i < |loops| && c in contexts ::
               var name := BuildUserParamKey(loops[i].0, c); IsSet(q, name) || name in q.refused
    ensures RunLoops(q, contexts, loops) == q
  {
    if loops != [] {
      var n := |loops| - 1;
      LoopsChangeNothing(q, contexts, loops[..n]);
      BackfillTwice(q, contexts, loops[n].0, loops[n].1);
    }
  }
}
