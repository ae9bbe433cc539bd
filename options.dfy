/** The slash-command option tree: `get_options` (src/utils/mod.rs:4-22) and the
    "last option wins" readings every handler's parse loop performs. */
module Options {
  import opened Wrappers
  import opened Types

  /** `get_options`: the options of the first sub-command, or those of its first child when
      that child has options of its own (a sub-command group). No sub-command is an error. */
  function GetOptions(top: seq<CommandOption>): (r: Result<seq<CommandOption>, string>)
    ensures r.Err? <==> top == []
    ensures r.Ok? ==> forall o :: o in r.value ==>
              o in top[0].options || (top[0].options != [] && o in top[0].options[0].options)
    ensures top != [] && top[0].options != [] && top[0].options[0].options != [] ==>
              r == Ok(top[0].options[0].options)
    ensures top != [] && (top[0].options == [] || top[0].options[0].options == []) ==>
              r == Ok(top[0].options)
  {
    if top == [] then Err("Couldn't get subcommand data: indirection layer 1")
    else
      var command := top[0];
      if command.options == [] then Ok(command.options)
      else if |command.options[0].options| != 0 then Ok(command.options[0].options)
      else Ok(command.options)
  }

  /** An option called `name` carrying a string. */
  predicate IsString(o: CommandOption, name: string) {
    o.name == name && o.resolved.Some? && o.resolved.value.StringValue?
  }

  /** An option called `name` carrying an integer. */
  predicate IsInteger(o: CommandOption, name: string) {
    o.name == name && o.resolved.Some? && o.resolved.value.IntegerValue?
  }

  /** An option called `name` carrying an integer that is at least `bound`. */
  predicate IsIntegerAtLeast(o: CommandOption, name: string, bound: int) {
    IsInteger(o, name) && o.resolved.value.n >= bound
  }

  /** Some option called `name` carries an integer below `bound`. */
  predicate SomeIntegerBelow(opts: seq<CommandOption>, name: string, bound: int) {
    exists k :: 0 <= k < |opts| && IsInteger(opts[k], name) && opts[k].resolved.value.n < bound
  }

  /** The string of the last string option called `name`. */
  function LastString(opts: seq<CommandOption>, name: string): Option<string> {
    if opts == [] then None
    else
      var last := opts[|opts| - 1];
      if IsString(last, name) then Some(last.resolved.value.s)
      else LastString(opts[..|opts| - 1], name)
  }

  /** The integer of the last integer option called `name` whose value is at least `bound`. */
  function LastIntegerAtLeast(opts: seq<CommandOption>, name: string, bound: int): Option<int> {
    if opts == [] then None
    else
      var last := opts[|opts| - 1];
      if IsIntegerAtLeast(last, name, bound) then Some(last.resolved.value.n)
      else LastIntegerAtLeast(opts[..|opts| - 1], name, bound)
  }

  /** The integer of the last integer option called `name`, whatever its sign. */
  function LastInteger(opts: seq<CommandOption>, name: string): Option<int> {
    if opts == [] then None
    else
      var last := opts[|opts| - 1];
      if IsInteger(last, name) then Some(last.resolved.value.n)
      else LastInteger(opts[..|opts| - 1], name)
  }

  /** The string reading is the last string option called `name`: none when there is no
      such option, otherwise one such option's string with no such option after it. */
  lemma {:induction false} LastStringSpec(opts: seq<CommandOption>, name: string)
    ensures LastString(opts, name).None? <==> forall k :: 0 <= k < |opts| ==> !IsString(opts[k], name)
    ensures LastString(opts, name).Some? ==>
              exists k :: 0 <= k < |opts| && IsString(opts[k], name) &&
                opts[k].resolved.value.s == LastString(opts, name).value &&
                forall j :: k < j < |opts| ==> !IsString(opts[j], name)
  {
    if opts != [] {
      var init := opts[..|opts| - 1];
      LastStringSpec(init, name);
      assert forall k :: 0 <= k < |init| ==> init[k] == opts[k];
    }
  }

  /** The integer reading is the last integer option called `name`, whatever its sign. */
  lemma {:induction false} LastIntegerSpec(opts: seq<CommandOption>, name: string)
    ensures LastInteger(opts, name).None? <==> forall k :: 0 <= k < |opts| ==> !IsInteger(opts[k], name)
    ensures LastInteger(opts, name).Some? ==>
              exists k :: 0 <= k < |opts| && IsInteger(opts[k], name) &&
                opts[k].resolved.value.n == LastInteger(opts, name).value &&
                forall j :: k < j < |opts| ==> !IsInteger(opts[j], name)
  {
    if opts != [] {
      var init := opts[..|opts| - 1];
      LastIntegerSpec(init, name);
      assert forall k :: 0 <= k < |init| ==> init[k] == opts[k];
    }
  }

  /** The bounded reading is the last integer option called `name` at or above `bound`. */
  lemma {:induction false} LastIntegerAtLeastSpec(opts: seq<CommandOption>, name: string, bound: int)
    ensures LastIntegerAtLeast(opts, name, bound).None? <==>
              forall k :: 0 <= k < |opts| ==> !IsIntegerAtLeast(opts[k], name, bound)
    ensures LastIntegerAtLeast(opts, name, bound).Some? ==>
              LastIntegerAtLeast(opts, name, bound).value >= bound &&
              exists k :: 0 <= k < |opts| && IsIntegerAtLeast(opts[k], name, bound) &&
                opts[k].resolved.value.n == LastIntegerAtLeast(opts, name, bound).value &&
                forall j :: k < j < |opts| ==> !IsIntegerAtLeast(opts[j], name, bound)
  {
    if opts != [] {
      var init := opts[..|opts| - 1];
      LastIntegerAtLeastSpec(init, name, bound);
      assert forall k :: 0 <= k < |init| ==> init[k] == opts[k];
    }
  }

  /** Extending the options by one: the last string reading looks at the new option first. */
  lemma {:induction false} LastStringStep(opts: seq<CommandOption>, o: CommandOption, name: string)
    ensures LastString(opts + [o], name) == if IsString(o, name) then Some(o.resolved.value.s) else LastString(opts, name)
  {
    assert (opts + [o])[..|opts|] == opts;
  }

  /** Extending the options by one: the last integer reading looks at the new option first. */
  lemma {:induction false} LastIntegerStep(opts: seq<CommandOption>, o: CommandOption, name: string)
    ensures LastInteger(opts + [o], name) == if IsInteger(o, name) then Some(o.resolved.value.n) else LastInteger(opts, name)
  {
    assert (opts + [o])[..|opts|] == opts;
  }

  /** Extending the options by one: the bounded integer reading looks at the new option first. */
  lemma {:induction false} LastIntegerAtLeastStep(opts: seq<CommandOption>, o: CommandOption, name: string, bound: int)
    ensures LastIntegerAtLeast(opts + [o], name, bound) ==
            if IsIntegerAtLeast(o, name, bound) then Some(o.resolved.value.n) else LastIntegerAtLeast(opts, name, bound)
  {
    assert (opts + [o])[..|opts|] == opts;
  }

  /** Extending the options by one: a small integer is found in the old options or the new one. */
  lemma {:induction false} SomeIntegerBelowStep(opts: seq<CommandOption>, o: CommandOption, name: string, bound: int)
    ensures SomeIntegerBelow(opts + [o], name, bound) <==>
            SomeIntegerBelow(opts, name, bound) || (IsInteger(o, name) && o.resolved.value.n < bound)
  {
    if SomeIntegerBelow(opts, name, bound) {
      var k :| 0 <= k < |opts| && IsInteger(opts[k], name) && opts[k].resolved.value.n < bound;
      assert (opts + [o])[k] == opts[k];
    }
    if SomeIntegerBelow(opts + [o], name, bound) {
      var k :| 0 <= k < |opts| + 1 && IsInteger((opts + [o])[k], name) && (opts + [o])[k].resolved.value.n < bound;
      if k < |opts| { assert opts[k] == (opts + [o])[k]; }
    }
    if IsInteger(o, name) && o.resolved.value.n < bound {
      assert (opts + [o])[|opts|] == o;
    }
  }

  /** When no integer option falls below `bound`, the last integer option is also the last
      one at or above it. */
  lemma {:induction false} LastIntegerWithoutSmaller(opts: seq<CommandOption>, name: string, bound: int)
    requires !SomeIntegerBelow(opts, name, bound)
    ensures LastInteger(opts, name) == LastIntegerAtLeast(opts, name, bound)
  {
    if opts != [] {
      var init := opts[..|opts| - 1];
      assert opts == init + [opts[|opts| - 1]];
      LastIntegerStep(init, opts[|opts| - 1], name);
      LastIntegerAtLeastStep(init, opts[|opts| - 1], name, bound);
      SomeIntegerBelowStep(init, opts[|opts| - 1], name, bound);
      LastIntegerWithoutSmaller(init, name, bound);
    }
  }

  /** A small integer anywhere in a prefix is a small integer in the whole list. */
  lemma {:induction false} SomeIntegerBelowExtends(options: seq<CommandOption>, i: nat, name: string, bound: int)
    requires i <= |options| && SomeIntegerBelow(options[..i], name, bound)
    ensures SomeIntegerBelow(options, name, bound)
  {
    var k :| 0 <= k < i && IsInteger(options[..i][k], name) && options[..i][k].resolved.value.n < bound;
    assert options[k] == options[..i][k];
  }
}
