/**
 * The long-option map (`parseArgs`, `Get`, `GetInt`): every argument after the
 * program name and the command of the form `--name=value` binds the trimmed
 * name to the trimmed value; the map is built once, on first use.
 */
module Options {
  import opened Wrappers
  import opened Text
  import Decimal

  /**
   * What one argument contributes: a name and a value when it starts with "--"
   * and holds an '=', split at the first '=' and trimmed; nothing otherwise.
   */
  function Token(arg: string): (r: Option<(string, string)>)
    ensures r.Some? <==> HasPrefix(arg, "--") && '=' in arg
  {
    if HasPrefix(arg, "--") then
      match IndexOf(arg, '=')
      case None => None
      case Some(eq) =>
        assert arg[0] == '-' && arg[1] == '-';
        Some((TrimSpace(arg[2..eq]), TrimSpace(arg[eq + 1..])))
    else None
  }

  /** The argument binds `name`. */
  predicate Binds(arg: string, name: string) {
    Token(arg).Some? && Token(arg).value.0 == name
  }

  /**
   * The map that inserting the given contributions in order builds: each
   * `Some((name, value))` binds `name` to `value`, replacing an earlier binding.
   */
  function Fold(contributions: seq<Option<(string, string)>>): map<string, string> {
    if contributions == [] then map[]
    else
      var m := Fold(contributions[..|contributions| - 1]);
      match contributions[|contributions| - 1]
      case None => m
      case Some((name, value)) => m[name := value]
  }

  /** What each raw argument contributes: nothing for the program name and the command, its token for the rest. */
  function Contributions(osArgs: seq<string>): (r: seq<Option<(string, string)>>)
    ensures |r| == |osArgs|
    ensures forall i :: 0 <= i < |osArgs| ==> r[i] == if i > 1 then Token(osArgs[i]) else None
  {
    seq(|osArgs|, i requires 0 <= i < |osArgs| => if i > 1 then Token(osArgs[i]) else None)
  }

  /** The option map of a raw argument list, as `parseArgs` builds it. */
  function ParsedArgs(osArgs: seq<string>): map<string, string> {
    Fold(Contributions(osArgs))
  }

  /** An argument `--name=value` binds the trimmed name to the trimmed value, and `value` may hold further '='. */
  lemma TokenSplitsAtFirstEquals(name: string, value: string)
    requires '=' !in name
    ensures Token("--" + name + "=" + value) == Some((TrimSpace(name), TrimSpace(value)))
  {
    var arg := "--" + name + "=" + value;
    var eq := 2 + |name|;
    assert arg[eq] == '=';
    assert forall j :: 0 <= j < eq ==> arg[j] != '=' by {
      assert forall j :: 2 <= j < eq ==> arg[j] == name[j - 2];
    }
    assert IndexOf(arg, '=') == Some(eq);
    assert arg[2..eq] == name && arg[eq + 1..] == value;
  }

  /** A name is bound exactly when some contribution binds it. */
  lemma {:induction false} FoldKeys(cs: seq<Option<(string, string)>>, name: string)
    ensures name in Fold(cs) <==> exists i :: 0 <= i < |cs| && cs[i].Some? && cs[i].value.0 == name
  {
    if cs != [] {
      var init := cs[..|cs| - 1];
      FoldKeys(init, name);
      assert forall i :: 0 <= i < |init| ==> init[i] == cs[i];
    }
  }

  /** The value of a name is the one the last contribution binding it gives. */
  lemma {:induction false} FoldLastWins(cs: seq<Option<(string, string)>>, i: nat, name: string, value: string)
    requires i < |cs| && cs[i] == Some((name, value))
    requires forall j :: i < j < |cs| ==> cs[j].None? || cs[j].value.0 != name
    ensures name in Fold(cs) && Fold(cs)[name] == value
  {
    if i < |cs| - 1 {
      var init := cs[..|cs| - 1];
      assert init[i] == cs[i];
      assert forall j :: i < j < |init| ==> init[j] == cs[j];
      FoldLastWins(init, i, name, value);
    }
  }

  /** Every binding comes from a contribution that no later one overrides. */
  lemma {:induction false} FoldValueSource(cs: seq<Option<(string, string)>>, name: string)
    requires name in Fold(cs)
    ensures exists i :: 0 <= i < |cs| && cs[i] == Some((name, Fold(cs)[name]))
                        && forall j :: i < j < |cs| ==> cs[j].None? || cs[j].value.0 != name
  {
    var init, last := cs[..|cs| - 1], cs[|cs| - 1];
    if last.Some? && last.value.0 == name {
      assert cs[|cs| - 1] == Some((name, Fold(cs)[name]));
    } else {
      assert Fold(cs)[name] == Fold(init)[name];
      FoldValueSource(init, name);
      var i :| 0 <= i < |init| && init[i] == Some((name, Fold(init)[name]))
               && forall j :: i < j < |init| ==> init[j].None? || init[j].value.0 != name;
      assert cs[i] == init[i];
      assert forall j :: i < j < |init| ==> cs[j] == init[j];
    }
  }

  /** The program name and the command token never contribute: only what follows the command matters. */
  lemma ParsedArgsIgnoreProgramAndCommand(osArgs: seq<string>, program: string, command: string)
    requires |osArgs| >= 2
    ensures ParsedArgs([program, command] + osArgs[2..]) == ParsedArgs(osArgs)
  {
    var other := [program, command] + osArgs[2..];
    assert forall i :: 2 <= i < |osArgs| ==> other[i] == osArgs[i];
    assert Contributions(other) == Contributions(osArgs);
  }

  /** With no argument after the command, the map is empty. */
  lemma ParsedArgsOfCommandOnly(osArgs: seq<string>)
    requires |osArgs| <= 2
    ensures ParsedArgs(osArgs) == map[]
  {
    var cs := Contributions(osArgs);
    if |cs| >= 1 {
      var first := cs[..1];
      assert first[0] == None && first[..0] == [];
      assert Fold(first) == map[];
      if |cs| == 2 {
        assert cs[1] == None && cs[..1] == first;
      } else {
        assert cs == first;
      }
    }
  }

  /** A name is in the map exactly when some argument after the command binds it. */
  lemma ParsedArgsKeys(osArgs: seq<string>, name: string)
    ensures name in ParsedArgs(osArgs) <==> exists i :: 2 <= i < |osArgs| && Binds(osArgs[i], name)
  {
    var cs := Contributions(osArgs);
    FoldKeys(cs, name);
    if name in ParsedArgs(osArgs) {
      var i :| 0 <= i < |cs| && cs[i].Some? && cs[i].value.0 == name;
      assert Binds(osArgs[i], name);
    }
    if exists i :: 2 <= i < |osArgs| && Binds(osArgs[i], name) {
      var i :| 2 <= i < |osArgs| && Binds(osArgs[i], name);
      assert cs[i].Some? && cs[i].value.0 == name;
    }
  }

  /** The value of a name is the one its last binding argument gives: a later repetition wins. */
  lemma ParsedArgsLastWins(osArgs: seq<string>, i: nat, name: string, value: string)
    requires 2 <= i < |osArgs|
    requires Token(osArgs[i]) == Some((name, value))
    requires forall j :: i < j < |osArgs| ==> !Binds(osArgs[j], name)
    ensures name in ParsedArgs(osArgs) && ParsedArgs(osArgs)[name] == value
  {
    var cs := Contributions(osArgs);
    assert forall j :: i < j < |cs| ==> cs[j].None? || cs[j].value.0 != name by {
      forall j | i < j < |cs|
        ensures cs[j].None? || cs[j].value.0 != name
      {
        assert !Binds(osArgs[j], name);
      }
    }
    FoldLastWins(cs, i, name, value);
  }

  /** Every value in the map comes from the last argument after the command that binds its name. */
  lemma ParsedArgsValueSource(osArgs: seq<string>, name: string)
    requires name in ParsedArgs(osArgs)
    ensures exists i :: 2 <= i < |osArgs| && Token(osArgs[i]) == Some((name, ParsedArgs(osArgs)[name]))
                        && forall j :: i < j < |osArgs| ==> !Binds(osArgs[j], name)
  {
    var cs := Contributions(osArgs);
    FoldValueSource(cs, name);
    var i :| 0 <= i < |cs| && cs[i] == Some((name, Fold(cs)[name]))
             && forall j :: i < j < |cs| ==> cs[j].None? || cs[j].value.0 != name;
    assert i > 1 && Token(osArgs[i]) == cs[i];
    forall j | i < j < |osArgs|
      ensures !Binds(osArgs[j], name)
    {
      assert cs[j] == Token(osArgs[j]);
    }
  }

  /** A single option after the command, with white space around its name and value. */
  lemma SingleOption(program: string, command: string, name: string, value: string,
                     w1: string, w2: string, w3: string, w4: string)
    requires '=' !in name
    requires AllSpace(w1) && AllSpace(w2) && AllSpace(w3) && AllSpace(w4)
    ensures ParsedArgs([program, command, "--" + w1 + name + w2 + "=" + w3 + value + w4])
            == map[TrimSpace(name) := TrimSpace(value)]
  {
    var arg := "--" + w1 + name + w2 + "=" + w3 + value + w4;
    assert arg == "--" + (w1 + name + w2) + "=" + (w3 + value + w4);
    assert '=' !in w1 + name + w2;
    TokenSplitsAtFirstEquals(w1 + name + w2, w3 + value + w4);
    TrimSpaceSurrounded(w1, name, w2);
    TrimSpaceSurrounded(w3, value, w4);
    var a := [program, command, arg];
    var cs := Contributions(a);
    assert cs[..2][..1] == [None] && Fold([None]) == Fold([]);
    assert cs[..2] == cs[..|cs| - 1] && Fold(cs[..2]) == map[];
  }

  /**
   * The package-level option map: `built` is false while Go's `args` is nil,
   * and `entries` is the map once it exists.
   */
  class ArgMap {
    var built: bool
    var entries: map<string, string>

    constructor ()
      ensures !built && entries == map[]
    {
      built := false;
      entries := map[];
    }

    /**
     * `parseArgs`: builds the map from the raw arguments unless it is already
     * built, in which case nothing changes, whatever the arguments are now.
     */
    method Parse(osArgs: seq<string>)
      modifies this
      ensures built
      ensures entries == if old(built) then old(entries) else ParsedArgs(osArgs)
    {
      if built {
        return;
      }
      built := true;
      entries := map[];
      ghost var cs := Contributions(osArgs);
      for i := 0 to |osArgs|
        invariant built && entries == Fold(cs[..i])
      {
        assert cs[..i + 1][..i] == cs[..i];
        if i > 1 {
          var arg := osArgs[i];
          if HasPrefix(arg, "--") {
            var eq := IndexOf(arg, '=');
            if eq.Some? {
              assert arg[0] == '-' && arg[1] == '-';
              entries := entries[TrimSpace(arg[2..eq.value]) := TrimSpace(arg[eq.value + 1..])];
            }
          }
        }
      }
      assert cs[..|osArgs|] == cs;
    }

    /** `Get`: the value bound to `name`, or "" when there is none. */
    method Get(osArgs: seq<string>, name: string) returns (value: string)
      modifies this
      ensures built
      ensures entries == if old(built) then old(entries) else ParsedArgs(osArgs)
      ensures value == if name in entries then entries[name] else ""
    {
      Parse(osArgs);
      if name in entries {
        return entries[name];
      }
      return "";
    }

    /** `GetInt`: the value bound to `name` read by `strconv.Atoi`, or 0 when it is absent or not an integer. */
    method GetInt(osArgs: seq<string>, name: string) returns (n: int)
      modifies this
      ensures built
      ensures entries == if old(built) then old(entries) else ParsedArgs(osArgs)
      ensures name !in entries ==> n == 0
      ensures name in entries ==> n == match Decimal.Atoi(entries[name])
                                       case Ok(i) => i
                                       case Err(_) => 0
    {
      Parse(osArgs);
      if name in entries {
        var parsed := Decimal.Atoi(entries[name]);
        if parsed.Err? {
          return 0;
        }
        return parsed.value;
      }
      return 0;
    }
  }

  /**
   * Lookups are idempotent: a second `Get` returns what the first did, even
   * when the raw arguments have changed in between.
   */
  method LookupsAreStable(args: ArgMap, before: seq<string>, after: seq<string>, name: string)
    returns (first: string, second: string)
    modifies args
    ensures first == second
    ensures !old(args.built) ==> first == if name in ParsedArgs(before) then ParsedArgs(before)[name] else ""
    ensures old(args.built) ==> first == if name in old(args.entries) then old(args.entries)[name] else ""
  {
    first := args.Get(before, name);
    second := args.Get(after, name);
  }
}
