/** How Bronze Setup turns the text of a SQL script into the statements it
    sends to the warehouse: split on every `;`, strip each piece, and send
    the non-empty ones in order. The split is purely textual, so a `;` inside
    a quoted literal or a comment also ends a statement. */
module SqlScript {
  import opened Text

  const Delimiter: char := ';'

  /** No string of `xs` contains `c`. */
  predicate Avoids(xs: seq<string>, c: char)
  {
    forall i :: 0 <= i < |xs| ==> c !in xs[i]
  }

  /** Every string of `xs` is non-empty and has no whitespace at either end. */
  predicate AllStatements(xs: seq<string>)
  {
    forall i :: 0 <= i < |xs| ==> xs[i] != "" && IsStripped(xs[i])
  }

  /** The statements a sequence of pieces contributes, in order: each piece
      stripped, blank ones dropped. */
  function Keep(pieces: seq<string>): seq<string>
  {
    if |pieces| == 0 then [] else KeepFirst(pieces[0]) + Keep(pieces[1..])
  }

  lemma AllStatementsConcat(a: seq<string>, b: seq<string>)
    requires AllStatements(a) && AllStatements(b)
    ensures AllStatements(a + b)
  {
    forall i | 0 <= i < |a + b|
      ensures (a + b)[i] != "" && IsStripped((a + b)[i])
    {
      if i >= |a| { assert (a + b)[i] == b[i - |a|]; }
    }
  }

  lemma AvoidsConcat(a: seq<string>, b: seq<string>, c: char)
    requires Avoids(a, c) && Avoids(b, c)
    ensures Avoids(a + b, c)
  {
    forall i | 0 <= i < |a + b|
      ensures c !in (a + b)[i]
    {
      if i >= |a| { assert (a + b)[i] == b[i - |a|]; }
    }
  }

  /** What the first piece contributes. */
  function KeepFirst(p: string): seq<string>
  {
    var s := Strip(p);
    if s == "" then [] else [s]
  }

  lemma {:induction false} KeepWellFormed(pieces: seq<string>, c: char)
    ensures AllStatements(Keep(pieces))
    ensures Avoids(pieces, c) ==> Avoids(Keep(pieces), c)
    decreases |pieces|
  {
    if |pieces| > 0 {
      KeepWellFormed(pieces[1..], c);
      var first := KeepFirst(pieces[0]);
      var rest := Keep(pieces[1..]);
      assert Keep(pieces) == first + rest;
      AllStatementsConcat(first, rest);
      if Avoids(pieces, c) {
        assert c !in pieces[0];
        assert Avoids(first, c);
        assert Avoids(pieces[1..], c) by {
          forall i | 0 <= i < |pieces[1..]|
            ensures c !in pieces[1..][i]
          {
            assert pieces[1..][i] == pieces[i + 1];
          }
        }
        AvoidsConcat(first, rest, c);
      }
    }
  }

  lemma {:induction false} KeepConcat(a: seq<string>, b: seq<string>)
    ensures Keep(a + b) == Keep(a) + Keep(b)
    decreases |a|
  {
    if |a| == 0 {
      assert a + b == b;
    } else {
      var ab := a + b;
      assert ab[0] == a[0];
      assert ab[1..] == a[1..] + b;
      KeepConcat(a[1..], b);
      calc {
        Keep(ab);
        KeepFirst(a[0]) + Keep(a[1..] + b);
        KeepFirst(a[0]) + (Keep(a[1..]) + Keep(b));
        (KeepFirst(a[0]) + Keep(a[1..])) + Keep(b);
      }
    }
  }

  lemma KeepOne(p: string)
    ensures Keep([p]) == KeepFirst(p)
  {
    assert [p][1..] == [];
  }

  /** One more piece adds what it contributes at the end. */
  lemma KeepSnoc(pieces: seq<string>, i: nat)
    requires i < |pieces|
    ensures Keep(pieces[..i + 1]) == Keep(pieces[..i]) + KeepFirst(pieces[i])
  {
    var a, b := pieces[..i], [pieces[i]];
    assert pieces[..i + 1] == a + b;
    KeepConcat(a, b);
    KeepOne(pieces[i]);
  }

  /** The statements `execute_sql_file` executes for script text `sql`. */
  function Statements(sql: string): (r: seq<string>)
    ensures forall i :: 0 <= i < |r| ==> r[i] != "" && IsStripped(r[i])
    ensures forall i :: 0 <= i < |r| ==> Delimiter !in r[i]
  {
    var pieces := Split(sql, Delimiter);
    assert Avoids(pieces, Delimiter);
    KeepWellFormed(pieces, Delimiter);
    Keep(pieces)
  }

  /** The loop of `execute_sql_file`: the statements passed to
      `cursor.execute`, one per iteration that finds a non-blank piece. */
  method ExecuteSqlFile(sql: string) returns (executed: seq<string>)
    ensures executed == Statements(sql)
  {
    var pieces := Split(sql, Delimiter);
    executed := [];
    var i := 0;
    while i < |pieces|
      invariant 0 <= i <= |pieces|
      invariant executed == Keep(pieces[..i])
    {
      var statement := Strip(pieces[i]);
      KeepSnoc(pieces, i);
      if statement != "" {
        executed := executed + [statement];
      }
      i := i + 1;
    }
    assert pieces[..i] == pieces;
  }

  /** Order: the statements of text joined at a `;` are those of the left
      part followed by those of the right part. */
  lemma StatementsConcat(a: string, b: string)
    ensures Statements(a + [Delimiter] + b) == Statements(a) + Statements(b)
  {
    SplitConcat(a, b, Delimiter);
    KeepConcat(Split(a, Delimiter), Split(b, Delimiter));
  }

  /** Text is blank for the splitter when it holds only `;` and whitespace. */
  predicate Blank(sql: string)
  {
    forall i :: 0 <= i < |sql| ==> sql[i] == Delimiter || IsSpace(sql[i])
  }

  /** Every piece is whitespace only. */
  predicate AllBlank(pieces: seq<string>)
  {
    forall j :: 0 <= j < |pieces| ==> AllSpace(pieces[j])
  }

  lemma {:induction false} KeepEmptyIffAllBlank(pieces: seq<string>)
    ensures Keep(pieces) == [] <==> AllBlank(pieces)
    decreases |pieces|
  {
    if |pieces| > 0 {
      KeepEmptyIffAllBlank(pieces[1..]);
      assert AllBlank(pieces) <==> AllSpace(pieces[0]) && AllBlank(pieces[1..]) by {
        if AllSpace(pieces[0]) && AllBlank(pieces[1..]) {
          forall j | 0 <= j < |pieces|
            ensures AllSpace(pieces[j])
          {
            if j > 0 { assert pieces[j] == pieces[1..][j - 1]; }
          }
        }
        if AllBlank(pieces) {
          forall j | 0 <= j < |pieces[1..]|
            ensures AllSpace(pieces[1..][j])
          {
            assert pieces[1..][j] == pieces[j + 1];
          }
        }
      }
    }
  }

  lemma AllSpaceCons(c: char, x: string)
    ensures AllSpace([c] + x) <==> IsSpace(c) && AllSpace(x)
  {
    var s := [c] + x;
    if IsSpace(c) && AllSpace(x) {
      forall i | 0 <= i < |s|
        ensures IsSpace(s[i])
      {
        if i > 0 { assert s[i] == x[i - 1]; }
      }
    }
    if AllSpace(s) {
      assert s[0] == c;
      forall i | 0 <= i < |x|
        ensures IsSpace(x[i])
      {
        assert x[i] == s[i + 1];
      }
    }
  }

  lemma BlankCons(sql: string)
    requires |sql| > 0
    ensures Blank(sql) <==> (sql[0] == Delimiter || IsSpace(sql[0])) && Blank(sql[1..])
  {
    if (sql[0] == Delimiter || IsSpace(sql[0])) && Blank(sql[1..]) {
      forall i | 0 <= i < |sql|
        ensures sql[i] == Delimiter || IsSpace(sql[i])
      {
        if i > 0 { assert sql[i] == sql[1..][i - 1]; }
      }
    }
  }

  lemma AllBlankCons(x: string, rest: seq<string>)
    ensures AllBlank([x] + rest) <==> AllSpace(x) && AllBlank(rest)
  {
    var p := [x] + rest;
    if AllSpace(x) && AllBlank(rest) {
      forall j | 0 <= j < |p|
        ensures AllSpace(p[j])
      {
        if j > 0 { assert p[j] == rest[j - 1]; }
      }
    }
    if AllBlank(p) {
      assert p[0] == x;
      forall j | 0 <= j < |rest|
        ensures AllSpace(rest[j])
      {
        assert rest[j] == p[j + 1];
      }
    }
  }

  /** The pieces of `sql` are all blank exactly when `sql` is blank. */
  lemma {:induction false} SplitAllBlankIffBlank(sql: string)
    ensures AllBlank(Split(sql, Delimiter)) <==> Blank(sql)
    decreases |sql|
  {
    if |sql| == 0 {
      assert Split(sql, Delimiter) == [""];
    } else {
      var t := Split(sql[1..], Delimiter);
      SplitAllBlankIffBlank(sql[1..]);
      BlankCons(sql);
      AllBlankCons(t[0], t[1..]);
      assert t == [t[0]] + t[1..];
      if sql[0] == Delimiter {
        AllBlankCons("", t);
      } else {
        AllSpaceCons(sql[0], t[0]);
        AllBlankCons([sql[0]] + t[0], t[1..]);
      }
    }
  }

  /** Nothing is executed exactly when the text is blank; in particular
      whitespace-only text executes nothing. */
  lemma StatementsEmptyIffBlank(sql: string)
    ensures Statements(sql) == [] <==> Blank(sql)
  {
    KeepEmptyIffAllBlank(Split(sql, Delimiter));
    SplitAllBlankIffBlank(sql);
  }

  /** Text with no `;` and something besides whitespace is one statement:
      the text itself, stripped. */
  lemma SingleStatement(sql: string)
    requires Delimiter !in sql && !AllSpace(sql)
    ensures Statements(sql) == [Strip(sql)]
  {
    SplitNoSeparator(sql, Delimiter);
    KeepOne(sql);
  }

  /** A whitespace-only segment after a trailing `;` contributes nothing. */
  lemma TrailingBlankSkipped(a: string, w: string)
    requires AllSpace(w)
    ensures Statements(a + [Delimiter] + w) == Statements(a)
  {
    StatementsConcat(a, w);
    StatementsEmptyIffBlank(w);
  }

  lemma Regroup(a: string, w: string, b: string)
    ensures a + [Delimiter] + w + [Delimiter] + b == a + [Delimiter] + (w + [Delimiter] + b)
  {
  }

  /** A whitespace-only segment between two `;` contributes nothing. */
  lemma BlankSegmentSkipped(a: string, w: string, b: string)
    requires AllSpace(w)
    ensures Statements(a + [Delimiter] + w + [Delimiter] + b) == Statements(a) + Statements(b)
  {
    var tail := w + [Delimiter] + b;
    Regroup(a, w, b);
    StatementsConcat(a, tail);
    StatementsConcat(w, b);
    StatementsEmptyIffBlank(w);
  }
}
