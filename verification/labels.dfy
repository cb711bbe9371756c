/** The human-readable label the Silver, Gold and Mart transforms derive
    from each SQL file path before running it:
    `basename(path).replace('.sql', '').split('_', 1)[1].upper()`. */
module Labels {
  import opened Wrappers
  import opened Text

  const SqlExtension := ".sql"

  /** The basename with every `.sql` removed. */
  function Stem(path: string): string
  {
    RemoveAll(Basename(path), SqlExtension)
  }

  /** The label of a SQL file path, or `None` where Python raises IndexError
      because the stem has no `_`. */
  function Label(path: string): (r: Option<string>)
    ensures r.None? <==> '_' !in Stem(path)
    ensures r.Some? ==>
              var st := Stem(path);
              && |r.value| < |st| && st[|st| - |r.value| - 1] == '_'
              && (forall j :: 0 <= j < |st| - |r.value| - 1 ==> st[j] != '_')
              && r.value == Upper(st[|st| - |r.value|..])
  {
    var st := Stem(path);
    match AfterFirst(st, '_')
    case None => None
    case Some(rest) =>
      var u := Upper(rest);
      assert |u| == |rest| && rest == st[|st| - |u|..];
      Some(u)
  }

  /** A label exists exactly when the basename has an `_`: removing `.sql`
      never adds or removes one. */
  lemma LabelDefinedIff(path: string)
    ensures Label(path).None? <==> '_' !in Basename(path)
  {
    assert '_' !in SqlExtension;
    assert '_' in Stem(path) <==> '_' in Basename(path);
  }

  /** A label has no lower-case ASCII letter and no `/`. */
  lemma LabelIsUpperName(path: string)
    requires Label(path).Some?
    ensures forall i :: 0 <= i < |Label(path).value| ==> !('a' <= Label(path).value[i] <= 'z')
    ensures '/' !in Label(path).value
  {
    var stem := Stem(path);
    assert '/' !in SqlExtension;
    assert '/' !in stem;
    var rest := AfterFirst(stem, '_').value;
    assert rest == stem[|stem| - |rest|..];
    assert '/' !in rest;
    UpperKeepsSlashOut(rest);
  }

  lemma UpperKeepsSlashOut(s: string)
    requires '/' !in s
    ensures '/' !in Upper(s)
    ensures forall i :: 0 <= i < |Upper(s)| ==> !('a' <= Upper(s)[i] <= 'z')
  {
    var u := Upper(s);
    forall i | 0 <= i < |u|
      ensures u[i] != '/' && !('a' <= u[i] <= 'z')
    {
      assert u[i] == UpperChar(s[i]);
    }
  }

  /** For a file `NN_name.sql` the label is `name` upper-cased; only the
      first `_` splits, so later underscores survive. */
  lemma LabelOfScriptName(prefix: string, name: string)
    requires '_' !in prefix && '.' !in prefix && '.' !in name
    requires '/' !in prefix && '/' !in name
    ensures Label(prefix + "_" + name + SqlExtension) == Some(Upper(name))
  {
    var stem := prefix + "_" + name;
    ScriptNameHasNoSlash(prefix, name);
    BasenameOfName(stem + SqlExtension);
    assert '.' !in stem by {
      forall i | 0 <= i < |stem|
        ensures stem[i] != '.'
      {
        if i < |prefix| { assert stem[i] == prefix[i]; }
        else if i > |prefix| { assert stem[i] == name[i - |prefix| - 1]; }
      }
    }
    RemoveAllSuffix(stem, SqlExtension);
    AfterFirstOf(prefix, '_', name);
  }

  lemma ScriptNameHasNoSlash(prefix: string, name: string)
    requires '/' !in prefix && '/' !in name
    ensures '/' !in prefix + "_" + name + SqlExtension
  {
    var f := prefix + "_" + name + SqlExtension;
    forall i | 0 <= i < |f|
      ensures f[i] != '/'
    {
      if i < |prefix| { assert f[i] == prefix[i]; }
      else if i == |prefix| { assert f[i] == '_'; }
      else if i < |prefix| + 1 + |name| { assert f[i] == name[i - |prefix| - 1]; }
      else { assert f[i] == SqlExtension[i - |prefix| - 1 - |name|]; }
    }
  }

  /** The directory part of the path does not affect the label. */
  lemma LabelIgnoresDirectory(dir: string, f: string)
    requires '/' !in f
    ensures Label(dir + "/" + f) == Label(f)
  {
    BasenameOfJoin(dir, f);
    BasenameOfName(f);
  }

  /** The labels of a file list, or `None` if some file has none. */
  function LabelAll(paths: seq<string>): (r: Option<seq<string>>)
    ensures r.Some? <==> forall i :: 0 <= i < |paths| ==> Label(paths[i]).Some?
    ensures r.Some? ==> |r.value| == |paths|
    ensures r.Some? ==> forall i :: 0 <= i < |paths| ==> Label(paths[i]) == Some(r.value[i])
  {
    if |paths| == 0 then Some([])
    else
      match (Label(paths[0]), LabelAll(paths[1..]))
      case (Some(l), Some(ls)) =>
        var r := [l] + ls;
        assert forall i :: 0 <= i < |paths| ==> Label(paths[i]) == Some(r[i]) by {
          forall i | 0 <= i < |paths|
            ensures Label(paths[i]) == Some(r[i])
          {
            if i > 0 { assert paths[i] == paths[1..][i - 1]; }
          }
        }
        Some(r)
      case (None, _) => None
      case (_, None) =>
        assert exists i :: 0 <= i < |paths[1..]| && Label(paths[1..][i]).None?;
        var i :| 0 <= i < |paths[1..]| && Label(paths[1..][i]).None?;
        assert Label(paths[i + 1]).None?;
        None
  }

  /** A file name `NN_name.sql` given by its two parts. */
  datatype ScriptName = ScriptName(prefix: string, name: string)

  function PathOf(dir: string, n: ScriptName): string
  {
    dir + "/" + n.prefix + "_" + n.name + SqlExtension
  }

  /** The file-name part of a script path. */
  function FileOf(n: ScriptName): string
  {
    n.prefix + "_" + n.name + SqlExtension
  }

  lemma PathOfSplits(dir: string, n: ScriptName)
    ensures PathOf(dir, n) == dir + "/" + FileOf(n)
  {
  }

  /** The label of `dir/NN_name.sql`, by the lemmas above. */
  lemma LabelOfPath(dir: string, n: ScriptName)
    requires Plain(n)
    ensures Label(PathOf(dir, n)) == Some(Upper(n.name))
  {
    PathOfSplits(dir, n);
    LabelOfScriptName(n.prefix, n.name);
    ScriptNameHasNoSlash(n.prefix, n.name);
    LabelIgnoresDirectory(dir, FileOf(n));
  }

  /** The paths `dir/NN_name.sql` of a list of script names. */
  function ScriptPaths(dir: string, names: seq<ScriptName>): seq<string>
  {
    if |names| == 0 then [] else [PathOf(dir, names[0])] + ScriptPaths(dir, names[1..])
  }

  lemma {:induction false} ScriptPathsAt(dir: string, names: seq<ScriptName>)
    ensures |ScriptPaths(dir, names)| == |names|
    ensures forall i :: 0 <= i < |names| ==> ScriptPaths(dir, names)[i] == PathOf(dir, names[i])
    decreases |names|
  {
    if |names| > 0 {
      ScriptPathsAt(dir, names[1..]);
    }
  }

  /** The labels those names should give: each `name` upper-cased. */
  function ExpectedLabels(names: seq<ScriptName>): seq<string>
  {
    if |names| == 0 then [] else [Upper(names[0].name)] + ExpectedLabels(names[1..])
  }

  /** The prefix holds no `_`, and neither part holds `.` or `/`. */
  predicate Plain(n: ScriptName)
  {
    '_' !in n.prefix && '.' !in n.prefix && '.' !in n.name && '/' !in n.prefix && '/' !in n.name
  }

  predicate AllPlain(names: seq<ScriptName>)
  {
    |names| == 0 || (Plain(names[0]) && AllPlain(names[1..]))
  }

  /** Labelling a whole list of well-formed script paths. */
  lemma {:induction false} LabelAllScriptPaths(dir: string, names: seq<ScriptName>)
    requires AllPlain(names)
    ensures LabelAll(ScriptPaths(dir, names)) == Some(ExpectedLabels(names))
    decreases |names|
  {
    if |names| > 0 {
      var paths := ScriptPaths(dir, names);
      LabelOfPath(dir, names[0]);
      assert paths[0] == PathOf(dir, names[0]);
      assert paths[1..] == ScriptPaths(dir, names[1..]);
      LabelAllScriptPaths(dir, names[1..]);
    }
  }

  // Concrete file names are checked one index at a time: membership tests on
  // string literals are costly for the solver, index-wise predicates are not.

  /** From position `i` on, `s` holds only digits. */
  predicate DigitsFrom(s: string, i: nat)
    requires i <= |s|
    decreases |s| - i
  {
    i == |s| || ('0' <= s[i] <= '9' && DigitsFrom(s, i + 1))
  }

  /** From position `i` on, `s` holds only lower-case letters, digits and `_`. */
  predicate WordFrom(s: string, i: nat)
    requires i <= |s|
    decreases |s| - i
  {
    i == |s| || (('a' <= s[i] <= 'z' || '0' <= s[i] <= '9' || s[i] == '_') && WordFrom(s, i + 1))
  }

  lemma {:induction false} DigitsFromAt(s: string, i: nat)
    requires i <= |s| && DigitsFrom(s, i)
    ensures forall j :: i <= j < |s| ==> '0' <= s[j] <= '9'
    decreases |s| - i
  {
    if i < |s| {
      DigitsFromAt(s, i + 1);
    }
  }

  lemma {:induction false} WordFromAt(s: string, i: nat)
    requires i <= |s| && WordFrom(s, i)
    ensures forall j :: i <= j < |s| ==> 'a' <= s[j] <= 'z' || '0' <= s[j] <= '9' || s[j] == '_'
    decreases |s| - i
  {
    if i < |s| {
      WordFromAt(s, i + 1);
    }
  }

  /** A script name that is a digit prefix and a lower-case word, and whose
      word upper-cases to `table`. */
  predicate Checked(n: ScriptName, table: string)
  {
    DigitsFrom(n.prefix, 0) && WordFrom(n.name, 0)
    && |n.name| == |table| && UpperFrom(n.name, table, 0)
  }

  lemma CheckedIsPlain(n: ScriptName, table: string)
    requires Checked(n, table)
    ensures Plain(n) && Upper(n.name) == table
  {
    DigitsFromAt(n.prefix, 0);
    WordFromAt(n.name, 0);
    UpperByIndex(n.name, table);
  }

  lemma {:induction false} AllCheckedArePlain(names: seq<ScriptName>, tables: seq<string>)
    requires |tables| == |names|
    requires forall i :: 0 <= i < |names| ==> Checked(names[i], tables[i])
    ensures AllPlain(names) && ExpectedLabels(names) == tables
    decreases |names|
  {
    if |names| > 0 {
      CheckedIsPlain(names[0], tables[0]);
      assert forall i :: 0 <= i < |names[1..]| ==> Checked(names[1..][i], tables[1..][i]) by {
        forall i | 0 <= i < |names[1..]|
          ensures Checked(names[1..][i], tables[1..][i])
        {
          assert names[1..][i] == names[i + 1] && tables[1..][i] == tables[i + 1];
        }
      }
      AllCheckedArePlain(names[1..], tables[1..]);
      assert tables == [tables[0]] + tables[1..];
    }
  }

  /** The labels of checked script paths are exactly the given table names,
      in order. */
  lemma LabelsOfScripts(dir: string, names: seq<ScriptName>, tables: seq<string>)
    requires |tables| == |names|
    requires forall i :: 0 <= i < |names| ==> Checked(names[i], tables[i])
    ensures LabelAll(ScriptPaths(dir, names)) == Some(tables)
  {
    AllCheckedArePlain(names, tables);
    LabelAllScriptPaths(dir, names);
  }
}
