/**
 * Importing and resetting the application preferences from the advanced
 * settings screen. The import reads `key|value|type` lines from a file on
 * external storage, stages one typed `put` per line in an editor, and commits
 * once after the last line; the reset clears the store.
 */
module PreferenceImport {
  import opened JavaText
  import opened Preferences

  /** `Environment.getExternalStorageState()`, reduced to what the import distinguishes. */
  datatype StorageState = Mounted | MountedReadOnly | OtherState

  /** How `importApplicationPreferences` ends: a returned boolean, or an uncaught exception. */
  datatype ImportOutcome = Returned(success: bool) | Threw

  /** What one line asks of the editor. */
  datatype LineEffect =
    | Skip                                     // too few fields, or an unknown type
    | PutValue(key: string, value: PrefValue)  // one `put*` call
    | Malformed                                // `parseInt` / `parseLong` throws

  /** `Boolean.parseBoolean`: true exactly for the four letters of "true", each in either case. */
  function ParseBoolean(s: string): (r: bool)
    ensures r <==> |s| == 4 && s[0] in "tT" && s[1] in "rR" && s[2] in "uU" && s[3] in "eE"
  {
    ToLower(s) == "true"
  }

  /** The type field of a line, as the `toLowerCase().equals(...)` chain reads it. */
  datatype TypeWord = BooleanType | StringType | IntType | LongType | FloatType | UnknownType

  function TypeOf(word: string): TypeWord
  {
    var kind := ToLower(word);
    if kind == "boolean" then BooleanType
    else if kind == "string" then StringType
    else if kind == "int" then IntType
    else if kind == "long" then LongType
    else if kind == "float" then FloatType
    else UnknownType
  }

  /** The editor call for the `|`-separated fields of one line. */
  function FieldsEffect(info: seq<string>): LineEffect
  {
    if |info| < 3 then Skip
    else match TypeOf(info[2])
      case BooleanType => PutValue(info[0], BoolValue(ParseBoolean(info[1])))
      case StringType => PutValue(info[0], StringValue(info[1]))
      case IntType =>
        (match ParseInt(info[1])
         case None => Malformed
         case Some(v) => PutValue(info[0], IntValue(v)))
      case LongType =>
        (match ParseLong(info[1])
         case None => Malformed
         case Some(v) => PutValue(info[0], LongValue(v)))
      case FloatType => PutValue(info[0], FloatText(info[1]))
      case UnknownType => Skip
  }

  /**
   * The line rules: fewer than three fields are skipped; a `string` value is
   * stored verbatim; a `boolean` is true iff the value is "true" in any case;
   * an int or long that does not parse throws; an unknown type is skipped.
   */
  lemma FieldsEffectCases(info: seq<string>)
    ensures |info| < 3 ==> FieldsEffect(info) == Skip
    ensures FieldsEffect(info).PutValue? ==> |info| >= 3 && FieldsEffect(info).key == info[0]
    ensures |info| >= 3 && ToLower(info[2]) == "string" ==> FieldsEffect(info) == PutValue(info[0], StringValue(info[1]))
    ensures |info| >= 3 && ToLower(info[2]) == "boolean" ==>
              FieldsEffect(info) == PutValue(info[0], BoolValue(|info[1]| == 4 && info[1][0] in "tT" && info[1][1] in "rR"
                                                                && info[1][2] in "uU" && info[1][3] in "eE"))
    ensures FieldsEffect(info).Malformed? <==>
              |info| >= 3 && ((ToLower(info[2]) == "int" && ParseInt(info[1]).None?)
                           || (ToLower(info[2]) == "long" && ParseLong(info[1]).None?))
    ensures |info| >= 3 && ToLower(info[2]) !in ["boolean", "string", "int", "long", "float"] ==> FieldsEffect(info) == Skip
  {
  }

  /** The editor call for one line of the file. */
  function LineEffectOf(line: string): LineEffect
  {
    FieldsEffect(Split(line, '|'))
  }

  /**
   * The editor's staged values after the given lines, in file order; `None`
   * when some line throws.
   */
  function StagedEdits(lines: seq<string>): Option<Store>
  {
    if |lines| == 0 then Some(map[])
    else match StagedEdits(lines[..|lines| - 1])
      case None => None
      case Some(staged) =>
        match LineEffectOf(lines[|lines| - 1])
        case Skip => Some(staged)
        case Malformed => None
        case PutValue(k, v) => Some(staged[k := v])
  }

  /**
   * The file-level result of the import as a function of its inputs: `lines`
   * are the lines read before the end of the file, and `readFails` says that
   * opening the file or the read after the last of them raised an IOException,
   * which is caught and returns false.
   */
  function ImportResult(storage: StorageState, fileExists: bool, lines: seq<string>, readFails: bool): ImportOutcome
  {
    if storage == OtherState || !fileExists then Returned(false)
    else if StagedEdits(lines).None? then Threw
    else if readFails then Returned(false)
    else Returned(true)
  }

  /**
   * `importApplicationPreferences`. The storage state, the existence of the
   * file and a failing open or read are inputs; the file is the sequence of
   * lines read from it.
   */
  method ImportApplicationPreferences(prefs: SharedPreferences, storage: StorageState, fileExists: bool,
                                      lines: seq<string>, readFails: bool)
    returns (outcome: ImportOutcome)
    modifies prefs
    ensures outcome == ImportResult(storage, fileExists, lines, readFails)
    ensures prefs.values == if outcome == Returned(true) then old(prefs.values) + StagedEdits(lines).value
                            else old(prefs.values)
  {
    if storage == Mounted {
    } else if storage == MountedReadOnly {
    } else {
      return Returned(false);
    }
    if !fileExists {
      return Returned(false);
    }
    var editor := new Editor(prefs);
    var i := 0;
    while i < |lines|
      invariant 0 <= i <= |lines|
      invariant StagedEdits(lines[..i]) == Some(editor.pending)
      invariant editor.target == prefs && !editor.clearRequested
      invariant prefs.values == old(prefs.values)
    {
      StagedEditsStep(lines, i);
      var threw := StageLine(editor, lines[i]);
      if threw {
        MalformedLineThrows(lines, i);
        return Threw;
      }
      i := i + 1;
    }
    assert lines[..|lines|] == lines;
    if readFails {
      return Returned(false);
    }
    editor.Commit();
    return Returned(true);
  }

  /**
   * The body of the import loop for one line: split it, and issue the `put*`
   * call its type asks for; `threw` is the exception of a malformed number.
   */
  method StageLine(editor: Editor, line: string) returns (threw: bool)
    modifies editor
    ensures threw <==> LineEffectOf(line).Malformed?
    ensures editor.clearRequested == old(editor.clearRequested)
    ensures !threw ==> editor.pending == match LineEffectOf(line)
                                        case PutValue(k, v) => old(editor.pending)[k := v]
                                        case _ => old(editor.pending)
  {
    threw := false;
    var preferenceInfo := Split(line, '|');
    if |preferenceInfo| >= 3 {
      var kind := ToLower(preferenceInfo[2]);
      if kind == "boolean" {
        editor.Put(preferenceInfo[0], BoolValue(ParseBoolean(preferenceInfo[1])));
      } else if kind == "string" {
        editor.Put(preferenceInfo[0], StringValue(preferenceInfo[1]));
      } else if kind == "int" {
        var v := ParseInt(preferenceInfo[1]);
        if v.None? {
          return true;
        }
        editor.Put(preferenceInfo[0], IntValue(v.value));
      } else if kind == "long" {
        var v := ParseLong(preferenceInfo[1]);
        if v.None? {
          return true;
        }
        editor.Put(preferenceInfo[0], LongValue(v.value));
      } else if kind == "float" {
        editor.Put(preferenceInfo[0], FloatText(preferenceInfo[1]));
      }
    }
  }

  /** One pass of the import loop over a prefix that staged without throwing. */
  lemma StagedEditsStep(lines: seq<string>, i: nat)
    requires i < |lines| && StagedEdits(lines[..i]).Some?
    ensures StagedEdits(lines[..i + 1]) ==
      match LineEffectOf(lines[i])
      case Skip => StagedEdits(lines[..i])
      case Malformed => None
      case PutValue(k, v) => Some(StagedEdits(lines[..i]).value[k := v])
  {
    assert lines[..i + 1][..i] == lines[..i];
  }

  /** `resetAppPreferencesAsyncTask.doInBackground`: clear and commit. */
  method ResetPreferences(prefs: SharedPreferences)
    modifies prefs
    ensures prefs.values == map[]
  {
    var editor := new Editor(prefs);
    editor.Clear();
    editor.Commit();
  }

  // ---------------------------------------------------------------------------
  // Properties of the import
  // ---------------------------------------------------------------------------

  /**
   * A line that throws anywhere in the file means nothing from the file is
   * applied, since the single commit comes after the loop.
   */
  lemma {:induction false} MalformedLineThrows(lines: seq<string>, i: nat)
    requires i < |lines| && LineEffectOf(lines[i]).Malformed?
    ensures StagedEdits(lines).None?
    decreases |lines|
  {
    var init := lines[..|lines| - 1];
    if i < |lines| - 1 {
      assert init[i] == lines[i];
      MalformedLineThrows(init, i);
    }
  }

  /** A line that is skipped leaves the staged values as they were. */
  lemma SkippedLineChangesNothing(lines: seq<string>, line: string)
    requires LineEffectOf(line).Skip?
    ensures StagedEdits(lines + [line]) == StagedEdits(lines)
  {
    assert (lines + [line])[..|lines|] == lines;
  }

  /**
   * A line of fewer than three fields is skipped; so is one whose type is not
   * one of the five known words, whatever its case.
   */
  lemma ShortOrUnknownLineSkipped(line: string)
    requires |Split(line, '|')| < 3
          || ToLower(Split(line, '|')[2]) !in ["boolean", "string", "int", "long", "float"]
    ensures LineEffectOf(line) == Skip
  {
  }

  /**
   * The line `key|value|type|extra...` acts exactly as `key|value|type`: the
   * type is matched without regard to case and fields after the third are
   * ignored, empty ones included; an empty type skips on both sides.
   */
  lemma {:induction false} ExtraFieldsIgnored(key: string, value: string, kind: string, kind2: string, extra: seq<string>)
    requires '|' !in key && '|' !in value && '|' !in kind && '|' !in kind2
    requires forall k :: 0 <= k < |extra| ==> '|' !in extra[k]
    requires EqualsIgnoreCase(kind, kind2)
    ensures LineEffectOf(Join([key, value, kind] + extra, '|')) == LineEffectOf(Join([key, value, kind2], '|'))
  {
    var xs := [key, value, kind] + extra;
    var ys := [key, value, kind2];
    assert forall k :: 0 <= k < |xs| ==> '|' !in xs[k] by {
      forall k | 0 <= k < |xs|
        ensures '|' !in xs[k]
      {
        if k >= 3 {
          assert xs[k] == extra[k - 3];
        }
      }
    }
    SplitJoinDrops(xs, '|');
    SplitJoinDrops(ys, '|');
    DroppedFieldsEffect(xs);
    DroppedFieldsEffect(ys);
    assert |ToLower(kind)| == |kind| && |ToLower(kind2)| == |kind2|;
    if kind != "" {
      assert xs[..3] == ys[..3][2 := kind];
      SameFirstFields(xs[..3], ys[..3]);
    }
  }

  /**
   * The effect of a line split into at least three pieces depends on the first
   * three alone; an empty third piece (dropped, or read as the type "") skips.
   */
  lemma DroppedFieldsEffect(xs: seq<string>)
    requires |xs| >= 3
    ensures FieldsEffect(DropTrailingEmpty(xs)) == if xs[2] == "" then Skip else FieldsEffect(xs[..3])
  {
    var f := DropTrailingEmpty(xs);
    if xs[2] != "" {
      DropTrailingEmptyKeeps(xs, 2);
      SameFirstFields(f, xs[..3]);
    } else if |f| >= 3 {
      assert ToLower(f[2]) == "";
      FieldsEffectCases(f);
    }
  }

  /** Only the first three fields of a line decide what it does. */
  lemma SameFirstFields(info: seq<string>, info2: seq<string>)
    requires |info| >= 3 && |info2| >= 3
    requires info[0] == info2[0] && info[1] == info2[1] && ToLower(info[2]) == ToLower(info2[2])
    ensures FieldsEffect(info) == FieldsEffect(info2)
  {
    assert TypeOf(info[2]) == TypeOf(info2[2]);
  }

  /** A line that puts a key leaves its value staged, over any earlier line for that key. */
  lemma LaterLineWins(lines: seq<string>, line: string)
    requires StagedEdits(lines).Some? && LineEffectOf(line).PutValue?
    ensures StagedEdits(lines + [line]).Some?
    ensures StagedEdits(lines + [line]).value == StagedEdits(lines).value[LineEffectOf(line).key := LineEffectOf(line).value]
  {
    assert (lines + [line])[..|lines|] == lines;
  }

  /** The line stages a value for `key`. */
  predicate PutsKey(line: string, key: string)
  {
    LineEffectOf(line).PutValue? && LineEffectOf(line).key == key
  }

  /** `PutsKey` for a fixed key, as a test on lines. */
  function PutsKeyTest(key: string): string -> bool
  {
    line => PutsKey(line, key)
  }

  /** Some element of `xs` passes `p`. */
  ghost predicate Any<T>(xs: seq<T>, p: T -> bool)
  {
    exists i :: 0 <= i < |xs| && p(xs[i])
  }

  lemma AnySnoc<T>(xs: seq<T>, p: T -> bool)
    requires |xs| > 0
    ensures Any(xs, p) <==> Any(xs[..|xs| - 1], p) || p(xs[|xs| - 1])
  {
    var init := xs[..|xs| - 1];
    if Any(xs, p) {
      var i :| 0 <= i < |xs| && p(xs[i]);
      if i < |init| {
        assert init[i] == xs[i];
      }
    }
    if Any(init, p) {
      var i :| 0 <= i < |init| && p(init[i]);
      assert xs[i] == init[i];
    }
  }

  /** Some line of the file puts `key`. */
  ghost predicate SomeLinePuts(lines: seq<string>, key: string)
  {
    Any(lines, PutsKeyTest(key))
  }

  lemma SomeLinePutsSnoc(lines: seq<string>, key: string)
    requires |lines| > 0
    ensures SomeLinePuts(lines, key) <==>
      SomeLinePuts(lines[..|lines| - 1], key) || PutsKey(lines[|lines| - 1], key)
  {
    AnySnoc(lines, PutsKeyTest(key));
  }

  /** A key is staged exactly when some line of the file puts it. */
  lemma {:induction false} StagedKeys(lines: seq<string>, key: string)
    requires StagedEdits(lines).Some?
    ensures key in StagedEdits(lines).value <==> SomeLinePuts(lines, key)
  {
    if |lines| > 0 {
      var init := lines[..|lines| - 1];
      var staged := StagedEdits(init).value;
      var effect := LineEffectOf(lines[|lines| - 1]);
      assert StagedEdits(lines).value == if effect.PutValue? then staged[effect.key := effect.value] else staged;
      StagedKeys(init, key);
      SomeLinePutsSnoc(lines, key);
    }
  }

  /** The staged value of a key is the one put by the last line that puts it. */
  lemma {:induction false} StagedValueIsLastPut(lines: seq<string>, key: string, i: nat)
    requires StagedEdits(lines).Some?
    requires i < |lines| && PutsKey(lines[i], key)
    requires forall j :: i < j < |lines| ==> !PutsKey(lines[j], key)
    ensures key in StagedEdits(lines).value
    ensures StagedEdits(lines).value[key] == LineEffectOf(lines[i]).value
  {
    var init := lines[..|lines| - 1];
    if i < |lines| - 1 {
      assert init[i] == lines[i];
      assert !PutsKey(lines[|lines| - 1], key);
      assert forall j :: i < j < |init| ==> init[j] == lines[j];
      StagedValueIsLastPut(init, key, i);
    }
  }

  /** On success the committed store holds exactly the old keys and the staged ones. */
  lemma ImportedKeys(old_values: Store, lines: seq<string>, key: string)
    requires StagedEdits(lines).Some?
    ensures key in old_values + StagedEdits(lines).value <==>
      key in old_values || SomeLinePuts(lines, key)
  {
    StagedKeys(lines, key);
  }
}
