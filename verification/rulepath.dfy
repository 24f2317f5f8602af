/**
 * Rule variables name JSON paths such as `data.id`, but the expression
 * language reads `.` as an operator.  When a case is loaded every `.` of
 * its rule is replaced by the magic string "a0a0"; when the rule is
 * evaluated each variable is turned back into a JSONPath by prefixing
 * "$." and replacing "a0a0" by ".".
 */
module RulePath {
  import opened Text

  const DollarSymbol := "$"
  const DotSymbol := "."
  const MagicNumDot := "a0a0"

  /** `v` contains no "a0": the only names the magic string can carry unharmed. */
  predicate NoA0(v: string)
  {
    forall i :: 0 <= i < |v| - 1 ==> !(v[i] == 'a' && v[i + 1] == '0')
  }

  /** removeJPath: hides every dot of a rule behind the magic string. */
  function RemoveJPath(rule: string): (r: string)
    ensures '.' !in r
  {
    DotFree(rule);
    ReplaceAll(rule, DotSymbol, MagicNumDot)
  }

  lemma {:induction false} DotFree(s: string)
    ensures '.' !in ReplaceAll(s, DotSymbol, MagicNumDot)
  {
    if s != [] {
      assert s == [s[0]] + s[1..];
      DotFree(s[1..]);
    }
  }

  /** restoreJPath: rebuilds the JSONPath a rule variable stands for. */
  function RestoreJPath(name: string): (r: string)
    ensures |r| >= 2 && r[..2] == DollarSymbol + DotSymbol
  {
    RestorePrefix(name);
    ReplaceAll(DollarSymbol + DotSymbol + name, MagicNumDot, DotSymbol)
  }

  lemma RestorePrefix(name: string)
    ensures ReplaceAll(DollarSymbol + DotSymbol + name, MagicNumDot, DotSymbol)
         == DollarSymbol + DotSymbol + ReplaceAll(name, MagicNumDot, DotSymbol)
  {
    ReplaceAllCons('.', name, MagicNumDot, DotSymbol);
    assert DollarSymbol + DotSymbol + name == ['$'] + (['.'] + name);
    ReplaceAllCons('$', ['.'] + name, MagicNumDot, DotSymbol);
  }

  /** One step of removeJPath. */
  lemma RemoveHead(v: string)
    requires v != []
    ensures RemoveJPath(v) == (if v[0] == '.' then MagicNumDot else [v[0]]) + RemoveJPath(v[1..])
  {
  }

  /** One step of undoing the magic string, at a position where it does not start. */
  lemma ReplaceAllSkip(c: char, s: string, pat: string, rep: string)
    requires |pat| > 0
    requires |[c] + s| < |pat| || ([c] + s)[..|pat|] != pat
    ensures ReplaceAll([c] + s, pat, rep) == [c] + ReplaceAll(s, pat, rep)
  {
    assert ([c] + s)[1..] == s;
  }

  /** One step of undoing the magic string, where it does start. */
  lemma ReplaceAllHit(s: string, pat: string, rep: string)
    requires |pat| > 0
    ensures ReplaceAll(pat + s, pat, rep) == rep + ReplaceAll(s, pat, rep)
  {
    assert (pat + s)[..|pat|] == pat;
    assert (pat + s)[|pat|..] == s;
  }

  /** Where a name without "a0" has no dot, its encoding does not start with the magic string. */
  lemma NoMagicAtHead(v: string)
    requires NoA0(v) && v != [] && v[0] != '.'
    ensures |RemoveJPath(v)| < 4 || RemoveJPath(v)[..4] != MagicNumDot
  {
    RemoveHead(v);
    if |v| >= 2 {
      RemoveHead(v[1..]);
      assert RemoveJPath(v)[1] == (if v[1] == '.' then 'a' else v[1]);
      assert !(v[0] == 'a' && v[1] == '0');
      var e := RemoveJPath(v);
      assert e[0] == v[0];
      if |e| >= 4 && e[..4] == MagicNumDot {
        assert false;
      }
    } else {
      assert RemoveJPath(v[1..]) == [];
    }
  }

  /** Undoing the magic string gives back a name that never held "a0". */
  lemma {:induction false} UndoMagic(v: string)
    requires NoA0(v)
    ensures ReplaceAll(RemoveJPath(v), MagicNumDot, DotSymbol) == v
  {
    if v != [] {
      var rest := RemoveJPath(v[1..]);
      assert NoA0(v[1..]);
      UndoMagic(v[1..]);
      RemoveHead(v);
      if v[0] == '.' {
        ReplaceAllHit(rest, MagicNumDot, DotSymbol);
      } else {
        NoMagicAtHead(v);
        ReplaceAllSkip(v[0], rest, MagicNumDot, DotSymbol);
      }
    }
  }

  /** The round trip the two helpers are meant to complete, for names without "a0". */
  lemma RoundTripWithoutA0(v: string)
    requires NoA0(v)
    ensures RestoreJPath(RemoveJPath(v)) == DollarSymbol + DotSymbol + v
  {
    RestorePrefix(RemoveJPath(v));
    UndoMagic(v);
  }

  /** removeJPath works piecewise. */
  lemma {:induction false} RemoveConcat(u: string, v: string)
    ensures RemoveJPath(u + v) == RemoveJPath(u) + RemoveJPath(v)
  {
    if u != [] {
      RemoveHead(u + v);
      assert (u + v)[1..] == u[1..] + v;
      RemoveConcat(u[1..], v);
      RemoveHead(u);
      assert (u + v)[0] == u[0];
    } else {
      assert u + v == v;
    }
  }

  /** removeJPath leaves a dot-free text alone. */
  lemma {:induction false} RemoveDotFree(u: string)
    requires '.' !in u
    ensures RemoveJPath(u) == u
  {
    if u != [] {
      RemoveHead(u);
      RemoveDotFree(u[1..]);
    }
  }

  lemma EncodeExample(v: string)
    requires v == "data0.id"
    ensures RemoveJPath(v) == "data0a0a0id"
  {
    assert v == "data0" + ("." + "id");
    RemoveConcat("data0", "." + "id");
    RemoveConcat(".", "id");
    RemoveDotFree("data0");
    RemoveDotFree("id");
    RemoveHead(".");
  }

  /** The tail of the example: "ta0a0a0id" comes back as "t.a0id". */
  lemma RestoreTail()
    ensures ReplaceAll("ta0a0a0id", MagicNumDot, DotSymbol) == "t.a0id"
  {
    var t := "a0id";
    assert (['a'] + "0id")[2] == 'i';
    ReplaceAllSkip('a', "0id", MagicNumDot, DotSymbol);
    assert ['a'] + "0id" == t;
    assert ReplaceAll(t, MagicNumDot, DotSymbol) == t;
    ReplaceAllHit(t, MagicNumDot, DotSymbol);
    ReplaceAllSkip('t', MagicNumDot + t, MagicNumDot, DotSymbol);
    assert ['t'] + (MagicNumDot + t) == "ta0a0a0id";
    assert ['t'] + (DotSymbol + t) == "t.a0id";
  }

  lemma RestoreExample(e: string)
    requires e == "data0a0a0id"
    ensures RestoreJPath(e) == "$.dat.a0id"
  {
    SpellPrefix();
    RestoreBody();
    RestorePrefix(e);
  }

  lemma SpellPrefix()
    ensures DollarSymbol + DotSymbol + "dat.a0id" == "$.dat.a0id"
  {
  }

  /** The example without its prefix: "data0a0a0id" comes back as "dat.a0id". */
  lemma RestoreBody()
    ensures ReplaceAll("data0a0a0id", MagicNumDot, DotSymbol) == "dat.a0id"
  {
    RestoreTail();
    var w := "ta0a0a0id";
    assert (['a'] + w)[1] == 't';
    ReplaceAllSkip('a', w, MagicNumDot, DotSymbol);
    ReplaceAllSkip('d', ['a'] + w, MagicNumDot, DotSymbol);
    SpellBody();
  }

  lemma SpellBody()
    ensures "data0a0a0id" == ['d'] + (['a'] + "ta0a0a0id")
    ensures ['d'] + (['a'] + "t.a0id") == "dat.a0id"
  {
  }

  /** A field path `data0.id` comes back as `$.dat.a0id`. */
  lemma RoundTripBreaksOnA0(v: string)
    requires v == "data0.id"
    ensures RemoveJPath(v) == "data0a0a0id"
    ensures RestoreJPath(RemoveJPath(v)) == "$.dat.a0id"
    ensures RestoreJPath(RemoveJPath(v)) != DollarSymbol + DotSymbol + v
  {
    EncodeExample(v);
    RestoreExample(RemoveJPath(v));
    assert "$.dat.a0id"[5] != (DollarSymbol + DotSymbol + v)[5];
  }

  /*
   * Corrected encoding.  A literal "a0" is escaped as "a0a1" so that the
   * magic string can only have come from a dot; on names without "a0" it
   * coincides with removeJPath.
   */
  const MagicNumA0 := "a0a1"

  function EscapePath(v: string): (r: string)
    ensures '.' !in r
    ensures v != [] ==> r != [] && r[0] == (if v[0] == '.' then 'a' else v[0])
  {
    if v == [] then []
    else if v[0] == '.' then MagicNumDot + EscapePath(v[1..])
    else if |v| >= 2 && v[0] == 'a' && v[1] == '0' then MagicNumA0 + EscapePath(v[2..])
    else [v[0]] + EscapePath(v[1..])
  }

  function UnescapePath(w: string): (r: string)
    ensures |r| <= |w|
  {
    if |w| >= 4 && w[..4] == MagicNumDot then DotSymbol + UnescapePath(w[4..])
    else if |w| >= 4 && w[..4] == MagicNumA0 then "a0" + UnescapePath(w[4..])
    else if w == [] then []
    else [w[0]] + UnescapePath(w[1..])
  }

  /** The corrected restoreJPath. */
  function RestorePath(name: string): (r: string)
    ensures |r| >= 2 && r[..2] == DollarSymbol + DotSymbol
  {
    DollarSymbol + DotSymbol + UnescapePath(name)
  }

  lemma UnescapeLead(p: string, w: string)
    requires p == MagicNumDot || p == MagicNumA0
    ensures UnescapePath(p + w) == (if p == MagicNumDot then DotSymbol else "a0") + UnescapePath(w)
  {
    assert (p + w)[..4] == p;
    assert (p + w)[4..] == w;
  }

  lemma NotMagic(e: string)
    requires |e| >= 2 ==> !(e[0] == 'a' && e[1] == '0')
    ensures |e| < 4 || (e[..4] != MagicNumDot && e[..4] != MagicNumA0)
  {
    if |e| >= 4 {
      assert e[..4][0] == e[0] && e[..4][1] == e[1];
      assert MagicNumDot[0] == MagicNumA0[0] == 'a';
      assert MagicNumDot[1] == MagicNumA0[1] == '0';
    }
  }

  /** Every name survives the corrected encoding. */
  lemma {:induction false} UnescapeEscape(v: string)
    ensures UnescapePath(EscapePath(v)) == v
  {
    if v == [] {
    } else if v[0] == '.' {
      UnescapeEscape(v[1..]);
      UnescapeLead(MagicNumDot, EscapePath(v[1..]));
    } else if |v| >= 2 && v[0] == 'a' && v[1] == '0' {
      UnescapeEscape(v[2..]);
      UnescapeLead(MagicNumA0, EscapePath(v[2..]));
      assert v == "a0" + v[2..];
    } else {
      var rest := EscapePath(v[1..]);
      var e := [v[0]] + rest;
      UnescapeEscape(v[1..]);
      if |v| >= 2 {
        assert e[1] == (if v[1] == '.' then 'a' else v[1]);
      }
      NotMagic(e);
      assert e[1..] == rest;
    }
  }

  /** The intended round trip, for every name. */
  lemma RestoreEscaped(v: string)
    ensures RestorePath(EscapePath(v)) == DollarSymbol + DotSymbol + v
  {
    UnescapeEscape(v);
  }

  /** On names without "a0" the corrected encoding is the original one. */
  lemma {:induction false} EscapeAgrees(v: string)
    requires NoA0(v)
    ensures EscapePath(v) == RemoveJPath(v)
  {
    if v != [] {
      assert NoA0(v[1..]);
      EscapeAgrees(v[1..]);
      RemoveHead(v);
    }
  }
}
