/** The command-line framework of the maintenance scripts
    (scripts/__init__.py): arguments, actions, commands and the manager that
    dispatches between commands. `sys.argv` is an explicit parameter. What an
    action's `perform` does is the business of each subclass; the model
    returns an `Outcome` that records which `perform` call is made, or the
    message and status of the exit. */
module Scripts {
  import opened Wrappers
  import opened Text

  /** A value produced by `parse_arg`: the argument text itself or, for an
      action that overrides `parse_arg`, a list of strings. */
  datatype ArgValue = Str(s: string) | StrList(items: seq<string>)

  /** The call an action receives: `perform()`, `perform(*values)` or, when
      the argument list is empty, `perform()` followed by `perform(*None)`,
      which raises `TypeError`. A value is `None` for an argument that was
      never populated. */
  datatype Call = Bare | WithArgs(values: seq<Option<ArgValue>>) | BareThenTypeError

  /** What running the command line leads to. `Exit` prints `message` (when
      not empty) and then the usage text on standard error, and exits with
      `status`; `Raise` is an uncaught exception. */
  datatype Outcome =
    | Perform(action: Action, call: Call)
    | Exit(message: string, status: int)
    | Raise(error: string)

  /** `Action.parse_arg`: the value as given. */
  function AsGiven(index: int, value: string): ArgValue
  {
    Str(value)
  }

  /** The text `perform_from_cli` prints before the usage when arguments are
      missing (the `print` adds one more line break). */
  function NotEnoughMessage(required: nat): string
  {
    "Not enough arguments. This action requires at least " + NatToString(required) + "\n"
  }

  /** `Argument`. */
  class Argument {
    const name: string
    const required: bool
    var value: Option<ArgValue>
    var populated: bool

    constructor (name: string, required: bool)
      ensures this.name == name && this.required == required
      ensures value == None && !populated
    {
      this.name := name;
      this.required := required;
      value := None;
      populated := false;
    }

    /** `set_value` */
    method SetValue(v: ArgValue)
      modifies this
      ensures value == Some(v) && populated
    {
      value := Some(v);
      populated := true;
    }

    /** `usage_str`: the name in angle brackets when required, in square
        brackets otherwise. */
    function UsageStr(): (r: string)
      ensures |r| == |name| + 2 && r[1..|r| - 1] == name
      ensures required <==> r[0] == '<' && r[|r| - 1] == '>'
      ensures !required <==> r[0] == '[' && r[|r| - 1] == ']'
    {
      if required then "<" + name + ">" else "[" + name + "]"
    }
  }

  /** The usage strings of `args`, each followed by a space. */
  function ArgsUsage(args: seq<Argument>): string
  {
    if args == [] then "" else args[0].UsageStr() + " " + ArgsUsage(args[1..])
  }

  function UsageStrs(args: seq<Argument>): (r: seq<string>)
    ensures |r| == |args|
    ensures forall i :: 0 <= i < |args| ==> r[i] == args[i].UsageStr()
  {
    if args == [] then [] else [args[0].UsageStr()] + UsageStrs(args[1..])
  }

  /** Number of required arguments in `args`. */
  function RequiredCount(args: seq<Argument>): (n: nat)
    ensures n <= |args|
  {
    if args == [] then 0
    else RequiredCount(args[..|args| - 1]) + (if args[|args| - 1].required then 1 else 0)
  }

  /** `RequiredCount` counts exactly the required arguments: it is `|args|`
      only when every argument is required, and 0 only when none is. */
  lemma {:induction false} RequiredCountBounds(args: seq<Argument>)
    ensures RequiredCount(args) == |args| <==> forall i :: 0 <= i < |args| ==> args[i].required
    ensures RequiredCount(args) == 0 <==> forall i :: 0 <= i < |args| ==> !args[i].required
  {
    if args != [] {
      var front := args[..|args| - 1];
      RequiredCountBounds(front);
      assert forall i :: 0 <= i < |front| ==> front[i] == args[i];
    }
  }

  /** Splitting the argument part of a usage line on spaces gives back each
      argument's usage string and a final empty piece, provided no argument
      name contains a space. */
  lemma {:induction false} ArgsUsageWords(args: seq<Argument>)
    requires forall i :: 0 <= i < |args| ==> ' ' !in args[i].name
    ensures Split(ArgsUsage(args), ' ') == UsageStrs(args) + [""]
    decreases |args|
  {
    if args != [] {
      var u := args[0].UsageStr();
      assert ' ' !in u by {
        assert u == (if args[0].required then "<" else "[") + args[0].name
                    + (if args[0].required then ">" else "]");
      }
      ArgsUsageWords(args[1..]);
      SplitCons(u, ' ', ArgsUsage(args[1..]));
      assert ArgsUsage(args) == u + [' '] + ArgsUsage(args[1..]);
    }
  }

  /** Index of the first action named `name`, or `|actions|`. */
  function FindAction(actions: seq<Action>, name: string): (k: nat)
    ensures k <= |actions|
    ensures forall j :: 0 <= j < k ==> actions[j].name != name
    ensures k < |actions| ==> actions[k].name == name
  {
    if actions == [] then 0
    else if actions[0].name == name then 0
    else 1 + FindAction(actions[1..], name)
  }

  /** Index of the first default action, or `|actions|`. */
  function FindDefault(actions: seq<Action>): (k: nat)
    ensures k <= |actions|
    ensures forall j :: 0 <= j < k ==> !actions[j].isDefault
    ensures k < |actions| ==> actions[k].isDefault
  {
    if actions == [] then 0
    else if actions[0].isDefault then 0
    else 1 + FindDefault(actions[1..])
  }

  /** Index of the first command named `name`, or `|commands|`. */
  function FindCommand(commands: seq<Command>, name: string): (k: nat)
    ensures k <= |commands|
    ensures forall j :: 0 <= j < k ==> commands[j].name != name
    ensures k < |commands| ==> commands[k].name == name
  {
    if commands == [] then 0
    else if commands[0].name == name then 0
    else 1 + FindCommand(commands[1..], name)
  }

  /** `Action`: the class attributes `name`, `description`, `arguments` and
      `default` become constant fields, `parse_arg` a function field. */
  class Action {
    const name: string
    const description: string
    const arguments: Option<seq<Argument>>
    const isDefault: bool
    const parseArg: (int, string) -> ArgValue
    var parent: Command?

    constructor (name: string, description: string, arguments: Option<seq<Argument>>,
                 isDefault: bool, parseArg: (int, string) -> ArgValue)
      ensures this.name == name && this.description == description
      ensures this.arguments == arguments && this.isDefault == isDefault
      ensures this.parseArg == parseArg && parent == null
    {
      this.name := name;
      this.description := description;
      this.arguments := arguments;
      this.isDefault := isDefault;
      this.parseArg := parseArg;
      parent := null;
    }

    /** The argument objects of this action. */
    function Objs(): set<Argument>
    {
      if arguments.None? then {} else set g | g in arguments.value
    }

    /** No argument object is listed twice (each is built by its own
        `Argument(...)` call in the class attribute). */
    predicate Distinct()
    {
      arguments.Some? ==>
        forall i, j :: 0 <= i < j < |arguments.value| ==> arguments.value[i] != arguments.value[j]
    }

    /** `argnum`: one less than the command's count, because the action
        name is the command's first argument. */
    function Argnum(argv: seq<string>): int
      reads this
      requires parent != null
    {
      parent.Argnum(argv) - 1
    }

    /** How many arguments `populate_args` fills. */
    function PopCount(argv: seq<string>): (n: nat)
      reads this
      requires parent != null && arguments.Some?
      ensures n <= |arguments.value|
      ensures n <= Argnum(argv) || n == 0
    {
      var k := Argnum(argv);
      if k <= 0 then 0
      else if k < |arguments.value| then k
      else |arguments.value|
    }

    /** The value argument `i` holds once `populate_args` has run. */
    function FilledValue(argv: seq<string>, i: nat): Option<ArgValue>
      reads this, Objs()
      requires parent != null && arguments.Some? && i < |arguments.value|
    {
      if i < PopCount(argv) then Some(parseArg(i, argv[parent.ArgIndex(i + 1)]))
      else arguments.value[i].value
    }

    function FilledValues(argv: seq<string>): seq<Option<ArgValue>>
      reads this, Objs()
      requires parent != null && arguments.Some?
    {
      seq(|arguments.value|,
          i requires parent != null && arguments.Some? && 0 <= i < |arguments.value| reads this, Objs() =>
            FilledValue(argv, i))
    }

    /** What `perform_from_cli` ends in, from the state before it runs. */
    function CliOutcome(argv: seq<string>): Outcome
      reads this, Objs()
      requires parent != null
    {
      if arguments.None? then Perform(this, Bare)
      else if Argnum(argv) < RequiredCount(arguments.value) then
        Exit(NotEnoughMessage(RequiredCount(arguments.value)), 1)
      else if arguments.value == [] then Perform(this, BareThenTypeError)
      else Perform(this, WithArgs(FilledValues(argv)))
    }

    /** `populate_args`: gives the first `PopCount(argv)` arguments, in
        order, the parsed argv entries that follow the action name, and
        leaves the others alone. With a negative count and at least one
        argument, indexing argv raises `IndexError` (`ok` false) before
        anything is set. */
    method PopulateArgs(argv: seq<string>) returns (ok: bool)
      requires parent != null && arguments.Some? && Distinct()
      modifies Objs()
      ensures ok <==> Argnum(argv) >= 0 || arguments.value == []
      ensures ok ==> forall i :: 0 <= i < |arguments.value| ==>
                arguments.value[i].value == old(FilledValue(argv, i)) &&
                arguments.value[i].populated == (i < PopCount(argv) || old(arguments.value[i].populated))
      ensures !ok ==> forall i :: 0 <= i < |arguments.value| ==>
                arguments.value[i].value == old(arguments.value[i].value) &&
                arguments.value[i].populated == old(arguments.value[i].populated)
    {
      var args := arguments.value;
      if Argnum(argv) == 0 {
        return true;
      }
      var index := 0;
      var first := |argv| - parent.Argnum(argv) + 1;
      while index < |args|
        invariant 0 <= index <= |args|
        invariant Argnum(argv) > 0 ==> index < Argnum(argv)
        invariant Argnum(argv) < 0 ==> index == 0
        invariant forall i :: 0 <= i < index ==>
                    args[i].value == Some(parseArg(i, argv[parent.ArgIndex(i + 1)])) && args[i].populated
        invariant forall i :: index <= i < |args| ==>
                    args[i].value == old(args[i].value) && args[i].populated == old(args[i].populated)
      {
        if first + index >= |argv| {
          return false;
        }
        var v := parseArg(index, argv[first + index]);
        args[index].SetValue(v);
        index := index + 1;
        if first + index == |argv| {
          return true;
        }
      }
      return true;
    }

    /** `_args_list`: `None` without arguments or with an empty list;
        otherwise every argument's value in order. The early stop on an
        unpopulated argument tests `populated is None`, which a boolean
        never is, so unpopulated arguments contribute `None`. */
    method ArgsList() returns (r: Option<seq<Option<ArgValue>>>)
      ensures r.None? <==> arguments.None? || arguments.value == []
      ensures r.Some? ==> |r.value| == |arguments.value|
      ensures r.Some? ==> forall i :: 0 <= i < |r.value| ==> r.value[i] == arguments.value[i].value
    {
      if arguments.None? || arguments.value == [] {
        return None;
      }
      var args := arguments.value;
      var values: seq<Option<ArgValue>> := [];
      var i := 0;
      while i < |args|
        invariant 0 <= i <= |args| && |values| == i
        invariant forall j :: 0 <= j < i ==> values[j] == args[j].value
      {
        values := values + [args[i].value];
        i := i + 1;
      }
      return Some(values);
    }

    /** `perform_from_cli`: performs without arguments when the action takes
        none; exits with status 1 when fewer arguments were given than are
        required, without performing; otherwise populates the arguments and
        performs with their values. */
    method PerformFromCli(argv: seq<string>) returns (o: Outcome)
      requires parent != null && Distinct()
      modifies Objs()
      ensures o == old(CliOutcome(argv))
      ensures arguments.Some? && o.Perform? ==> forall i :: 0 <= i < |arguments.value| ==>
                arguments.value[i].value == old(FilledValue(argv, i))
      ensures arguments.None? || !o.Perform? ==> forall g :: g in Objs() ==>
                g.value == old(g.value) && g.populated == old(g.populated)
    {
      if arguments.None? {
        return Perform(this, Bare);
      }
      var args := arguments.value;
      var numRequired := 0;
      var i := 0;
      while i < |args|
        invariant 0 <= i <= |args|
        invariant numRequired == RequiredCount(args[..i])
      {
        assert args[..i + 1][..i] == args[..i];
        if args[i].required {
          numRequired := numRequired + 1;
        }
        i := i + 1;
      }
      assert args[..|args|] == args;
      if Argnum(argv) < numRequired {
        return Exit(NotEnoughMessage(numRequired), 1);
      }
      ghost var filled := FilledValues(argv);
      var ok := PopulateArgs(argv);
      assert ok;
      var values := ArgsList();
      if values.None? {
        return Perform(this, BareThenTypeError);
      }
      assert values.value == filled;
      return Perform(this, WithArgs(values.value));
    }

    /** `usage_short` as a value: the name and a space, then each argument's
        usage string and a space. */
    function ShortUsage(): string
    {
      name + " " + (if arguments.None? then "" else ArgsUsage(arguments.value))
    }

    /** `usage_short` */
    method UsageShort() returns (usage: string)
      ensures usage == ShortUsage()
    {
      usage := name + " ";
      if arguments.None? {
        return;
      }
      var args := arguments.value;
      var i := 0;
      while i < |args|
        invariant 0 <= i <= |args|
        invariant usage + ArgsUsage(args[i..]) == ShortUsage()
      {
        assert args[i..][1..] == args[i + 1..];
        usage := usage + args[i].UsageStr() + " ";
        i := i + 1;
      }
    }

    /** `usage_long` as a value. */
    function LongUsage(padding: int): string
    {
      "    " + LJust(ShortUsage(), padding) + " -  " + description + "."
    }

    /** `usage_long` */
    method UsageLong(padding: int) returns (line: string)
      ensures line == LongUsage(padding)
    {
      var short := UsageShort();
      line := "    " + LJust(short, padding) + " -  " + description + ".";
    }
  }

  /** The words of a usage line: the action name, then each argument's usage
      string, then an empty piece for the trailing space, provided no name
      contains a space. */
  lemma ShortUsageWords(a: Action)
    requires ' ' !in a.name
    requires a.arguments.Some? ==> forall i :: 0 <= i < |a.arguments.value| ==> ' ' !in a.arguments.value[i].name
    ensures a.arguments.None? ==> Split(a.ShortUsage(), ' ') == [a.name, ""]
    ensures a.arguments.Some? ==> Split(a.ShortUsage(), ' ') == [a.name] + UsageStrs(a.arguments.value) + [""]
  {
    var rest := if a.arguments.None? then "" else ArgsUsage(a.arguments.value);
    assert a.ShortUsage() == a.name + [' '] + rest;
    SplitCons(a.name, ' ', rest);
    if a.arguments.Some? {
      ArgsUsageWords(a.arguments.value);
    }
  }

  /** The largest of `ws` (0 for none). */
  function MaxOf(ws: seq<nat>): nat
  {
    if ws == [] then 0
    else
      var p := MaxOf(ws[..|ws| - 1]);
      if ws[|ws| - 1] > p then ws[|ws| - 1] else p
  }

  /** `MaxOf` is the maximum: no element is larger and, unless `ws` is
      empty, some element equals it. */
  lemma {:induction false} MaxOfIsMax(ws: seq<nat>)
    ensures forall i :: 0 <= i < |ws| ==> ws[i] <= MaxOf(ws)
    ensures ws != [] ==> exists i :: 0 <= i < |ws| && ws[i] == MaxOf(ws)
  {
    if ws != [] {
      var n := |ws| - 1;
      var front := ws[..n];
      MaxOfIsMax(front);
      assert forall i :: 0 <= i < n ==> front[i] == ws[i];
      if ws[n] <= MaxOf(front) && front != [] {
        var i :| 0 <= i < n && front[i] == MaxOf(front);
        assert ws[i] == MaxOf(ws);
      }
    }
  }

  /** The length of each action's `usage_short`. */
  function Widths(actions: seq<Action>): (ws: seq<nat>)
    ensures |ws| == |actions|
    ensures forall i :: 0 <= i < |actions| ==> ws[i] == |actions[i].ShortUsage()|
  {
    if actions == [] then []
    else
      var init := actions[..|actions| - 1];
      assert forall i :: 0 <= i < |init| ==> init[i] == actions[i];
      Widths(init) + [|actions[|actions| - 1].ShortUsage()|]
  }

  /** The padding `usage` computes: the widest `usage_short`. */
  function Padding(actions: seq<Action>): nat
  {
    MaxOf(Widths(actions))
  }

  /** With the padding the usage message computes, the ` -  ` before each
      description starts in the same column on every line. */
  lemma ColumnsAlign(actions: seq<Action>, i: nat)
    requires i < |actions|
    ensures var p := Padding(actions);
            actions[i].LongUsage(p)[4 + p..8 + p] == " -  "
  {
    var p := Padding(actions);
    MaxOfIsMax(Widths(actions));
    var a := actions[i];
    var j := LJust(a.ShortUsage(), p);
    assert |j| == p;
    assert a.LongUsage(p) == "    " + j + " -  " + (a.description + ".");
  }

  /** The action lines of a usage message, one per action, each ended by
      the line break `print` adds. */
  function UsageLines(actions: seq<Action>, padding: int): string
  {
    if actions == [] then ""
    else UsageLines(actions[..|actions| - 1], padding) + actions[|actions| - 1].LongUsage(padding) + "\n"
  }

  /** `Command`: `parent` is the manager it belongs to, if any. */
  class Command {
    const name: string
    const description: string
    const parent: Manager?
    var actions: seq<Action>

    /** The `__init__` of a subclass: `Command.__init__`, then the actions
        the subclass adds in order, then the post-init hook that
        `__init_subclass__` runs after every subclass constructor. */
    constructor (name: string, description: string, parent: Manager?, own: seq<Action>)
      modifies set a | a in own
      ensures this.name == name && this.description == description && this.parent == parent
      ensures |actions| == |own| + 1 && actions[..|own|] == own
      ensures fresh(actions[|own|]) && actions[|own|].name == "help"
      ensures actions[|own|].arguments.None? && !actions[|own|].isDefault
      ensures forall a :: a in actions ==> a.parent == this
    {
      this.name := name;
      this.description := description;
      this.parent := parent;
      actions := [];
      new;
      var i := 0;
      while i < |own|
        invariant 0 <= i <= |own| && actions == own[..i]
        invariant forall a :: a in actions ==> a.parent == this
      {
        AddAction(own[i]);
        assert own[..i + 1] == own[..i] + [own[i]];
        i := i + 1;
      }
      assert own[..|own|] == own;
      PostInit();
    }

    /** `_arg_index`: argv position of the command's argument `index`. */
    function ArgIndex(index: int): int
    {
      index + (if parent == null then 1 else 2)
    }

    /** `argnum`: the number of argv entries after the command name, which
        sits at argv[0] without a manager and at argv[1] under one. */
    function Argnum(argv: seq<string>): (n: int)
      ensures ArgIndex(n) == |argv|
    {
      if parent != null then |argv| - 2 else |argv| - 1
    }

    /** `arg`: `None` stands for the `IndexError` raised past the end. */
    function Arg(argv: seq<string>, index: nat): (r: Option<string>)
      ensures r.Some? <==> index < Argnum(argv)
      ensures r.Some? ==> r.value == argv[ArgIndex(index)]
    {
      var k := ArgIndex(index);
      if k < |argv| then Some(argv[k]) else None
    }

    /** Every action was added through `add_action`. */
    ghost predicate Valid()
      reads this, actions
    {
      forall a :: a in actions ==> a.parent == this && a.Distinct()
    }

    function ArgFootprint(): set<Argument>
      reads this
    {
      set a, g | a in actions && g in a.Objs() :: g
    }

    /** What `run` ends in. */
    function RunOutcome(argv: seq<string>): Outcome
      reads this, actions, ArgFootprint()
      requires Valid()
    {
      if Argnum(argv) == 0 then
        var k := FindDefault(actions);
        if k == |actions| then Exit("", 1)
        else actions[k].CliOutcome(argv)
      else
        match Arg(argv, 0)
        case None => Raise("IndexError")
        case Some(s) =>
          var req := Lower(s);
          var k := FindAction(actions, req);
          if k == |actions| then Exit("Unknown action " + req + ".\n", 1)
          else actions[k].CliOutcome(argv)
    }

    /** `add_action`: the action becomes this command's and goes last. */
    method AddAction(action: Action)
      modifies this, action
      ensures action.parent == this
      ensures actions == old(actions) + [action]
    {
      action.parent := this;
      actions := actions + [action];
    }

    /** `_post_init_`: appends a new help action. */
    method PostInit()
      modifies this
      ensures |actions| == |old(actions)| + 1 && actions[..|old(actions)|] == old(actions)
      ensures fresh(actions[|old(actions)|]) && actions[|old(actions)|].name == "help"
      ensures actions[|old(actions)|].parent == this
      ensures actions[|old(actions)|].arguments.None? && !actions[|old(actions)|].isDefault
    {
      var help := new Action("help", "This current output", None, false, AsGiven);
      AddAction(help);
    }

    /** `perform_action`: performs the first action with the requested
        name, or raises `RuntimeError`. */
    method PerformAction(actionName: string, args: seq<Option<ArgValue>>) returns (o: Outcome)
      ensures var k := FindAction(actions, actionName);
              if k < |actions| then o == Perform(actions[k], WithArgs(args))
              else o == Raise("RuntimeError: Requested action " + actionName + " does not exist.")
    {
      var i := 0;
      while i < |actions|
        invariant 0 <= i <= |actions|
        invariant forall j :: 0 <= j < i ==> actions[j].name != actionName
      {
        if actions[i].name == actionName {
          FindActionIsFirst(actions, actionName, i);
          return Perform(actions[i], WithArgs(args));
        }
        i := i + 1;
      }
      return Raise("RuntimeError: Requested action " + actionName + " does not exist.");
    }

    /** `run`: with no arguments performs the first default action (or
        exits 1 with the usage); otherwise performs the action named by the
        lower-cased first argument, or exits 1 when there is none. */
    method Run(argv: seq<string>) returns (o: Outcome)
      requires Valid()
      modifies ArgFootprint()
      ensures o == old(RunOutcome(argv))
    {
      var k: nat;
      if Argnum(argv) == 0 {
        k := 0;
        while k < |actions| && !actions[k].isDefault
          invariant k <= |actions|
          invariant forall j :: 0 <= j < k ==> !actions[j].isDefault
        {
          k := k + 1;
        }
        FindDefaultIsFirst(actions, k);
        if k == |actions| {
          return Exit("", 1);
        }
      } else {
        var s := Arg(argv, 0);
        if s.None? {
          return Raise("IndexError");
        }
        var req := Lower(s.value);
        k := 0;
        while k < |actions| && actions[k].name != req
          invariant k <= |actions|
          invariant forall j :: 0 <= j < k ==> actions[j].name != req
        {
          k := k + 1;
        }
        FindActionIsFirst(actions, req, k);
        if k == |actions| {
          return Exit("Unknown action " + req + ".\n", 1);
        }
      }
      o := actions[k].PerformFromCli(argv);
    }

    /** The name `usage` shows for this command. */
    function UsageName(argv: seq<string>): string
      requires |argv| >= 1
    {
      if parent != null then parent.name + " " + name else argv[0]
    }

    /** The padding loop of `usage`. */
    method ComputePadding() returns (padding: nat)
      ensures padding == Padding(actions)
    {
      padding := 0;
      var i := 0;
      while i < |actions|
        invariant 0 <= i <= |actions|
        invariant padding == MaxOf(Widths(actions)[..i])
      {
        var short := actions[i].UsageShort();
        assert Widths(actions)[..i + 1][..i] == Widths(actions)[..i];
        if |short| > padding {
          padding := |short|;
        }
        i := i + 1;
      }
      assert Widths(actions)[..|actions|] == Widths(actions);
    }

    /** The printing loop of `usage`: one line per action. */
    method ActionLines(padding: int) returns (body: string)
      ensures body == UsageLines(actions, padding)
    {
      body := "";
      var i := 0;
      while i < |actions|
        invariant 0 <= i <= |actions|
        invariant body == UsageLines(actions[..i], padding)
      {
        var line := actions[i].UsageLong(padding);
        assert actions[..i + 1][..i] == actions[..i];
        body := body + line + "\n";
        i := i + 1;
      }
      assert actions[..|actions|] == actions;
    }

    /** `usage`: the text it prints. */
    method Usage(argv: seq<string>) returns (text: string)
      requires |argv| >= 1
      ensures text == "usage: " + UsageName(argv) + " action [options]\n\nAvailable actions:\n"
                      + UsageLines(actions, Padding(actions))
    {
      var padding := ComputePadding();
      var body := ActionLines(padding);
      text := "usage: " + UsageName(argv) + " action [options]\n\nAvailable actions:\n" + body;
    }

    /** `usage_short`: the command's name. */
    function UsageShort(): (r: string)
      ensures r == name
    {
      name
    }

    /** `usage_long`: note the two spaces before the dash, where an action's
        line has one. */
    function LongUsage(padding: int): string
    {
      "    " + LJust(UsageShort(), padding) + "  -  " + description + "."
    }
  }

  lemma {:induction false} FindActionIsFirst(actions: seq<Action>, name: string, k: nat)
    requires k <= |actions|
    requires forall j :: 0 <= j < k ==> actions[j].name != name
    requires k < |actions| ==> actions[k].name == name
    ensures FindAction(actions, name) == k
    decreases k
  {
    if k > 0 {
      FindActionIsFirst(actions[1..], name, k - 1);
    }
  }

  lemma {:induction false} FindDefaultIsFirst(actions: seq<Action>, k: nat)
    requires k <= |actions|
    requires forall j :: 0 <= j < k ==> !actions[j].isDefault
    requires k < |actions| ==> actions[k].isDefault
    ensures FindDefault(actions) == k
    decreases k
  {
    if k > 0 {
      FindDefaultIsFirst(actions[1..], k - 1);
    }
  }

  lemma {:induction false} FindCommandIsFirst(commands: seq<Command>, name: string, k: nat)
    requires k <= |commands|
    requires forall j :: 0 <= j < k ==> commands[j].name != name
    requires k < |commands| ==> commands[k].name == name
    ensures FindCommand(commands, name) == k
    decreases k
  {
    if k > 0 {
      FindCommandIsFirst(commands[1..], name, k - 1);
    }
  }

  /** The argument `j` of an action sits at argv position
      `ArgIndex(j + 1)` of its command, and exists exactly when `j` is
      below the action's count. */
  lemma ActionArgsFollowName(a: Action, argv: seq<string>, j: nat)
    requires a.parent != null
    ensures j < a.Argnum(argv) <==> a.parent.ArgIndex(j + 1) < |argv|
    ensures j < a.Argnum(argv) ==> a.parent.Arg(argv, j + 1) == Some(argv[a.parent.ArgIndex(j + 1)])
  {
  }

  /** `perform_from_cli` never performs when too few arguments were given,
      and always performs when enough were. */
  lemma NotEnoughNeverPerforms(a: Action, argv: seq<string>)
    requires a.parent != null && a.arguments.Some?
    ensures a.CliOutcome(argv).Exit? <==> a.Argnum(argv) < RequiredCount(a.arguments.value)
    ensures a.CliOutcome(argv).Exit? ==> a.CliOutcome(argv).status == 1
    ensures !a.CliOutcome(argv).Exit? ==> a.CliOutcome(argv).Perform? && a.CliOutcome(argv).action == a
  {
  }

  /** A default action that declares arguments cannot run from a bare
      command line: its count is one less than the command's zero, so even
      with only optional arguments `run` exits with status 1. */
  lemma DefaultWithArgumentsExits(c: Command, argv: seq<string>)
    requires c.Valid() && c.Argnum(argv) == 0
    requires FindDefault(c.actions) < |c.actions|
    requires c.actions[FindDefault(c.actions)].arguments.Some?
    ensures var a := c.actions[FindDefault(c.actions)];
            c.RunOutcome(argv) == Exit(NotEnoughMessage(RequiredCount(a.arguments.value)), 1)
  {
  }

  /** `Manager`: the commands come as a given list rather than from module
      discovery. */
  class Manager {
    const name: string
    var commands: seq<Command>

    constructor (argv0: string)
      ensures name == argv0 && commands == []
    {
      name := argv0;
      commands := [];
    }

    /** `append_command` */
    method AppendCommand(command: Command)
      modifies this
      ensures commands == old(commands) + [command]
    {
      commands := commands + [command];
    }

    ghost function Actions(): set<Action>
      reads this, commands
    {
      set i, a | 0 <= i < |commands| && a in commands[i].actions :: a
    }

    ghost predicate Valid()
      reads this, commands, Actions()
    {
      forall i :: 0 <= i < |commands| ==>
        commands[i].parent == this &&
        (assert forall a :: a in commands[i].actions ==> a in Actions(); commands[i].Valid())
    }

    ghost function ArgFootprint(): set<Argument>
      reads this, commands
    {
      set i, g | 0 <= i < |commands| && g in commands[i].ArgFootprint() :: g
    }

    /** What `run` ends in. */
    ghost function RunOutcome(argv: seq<string>): Outcome
      reads this, commands, Actions(), ArgFootprint()
      requires Valid() && |argv| >= 1
    {
      if |argv| == 1 then Exit("", 1)
      else
        var req := Lower(argv[1]);
        var k := FindCommand(commands, req);
        if k == |commands| then Exit("Unknown command " + req + ".\n", 1)
        else
          assert forall a :: a in commands[k].actions ==> a in Actions();
          assert forall g :: g in commands[k].ArgFootprint() ==> g in ArgFootprint();
          commands[k].RunOutcome(argv)
    }

    /** `run`: exits 1 with the usage when no command is named; otherwise
        runs the first command named by the lower-cased argv[1], or exits 1
        when there is none. */
    method Run(argv: seq<string>) returns (o: Outcome)
      requires Valid() && |argv| >= 1
      modifies ArgFootprint()
      ensures o == old(RunOutcome(argv))
    {
      if |argv| == 1 {
        return Exit("", 1);
      }
      var req := Lower(argv[1]);
      var k := 0;
      while k < |commands| && commands[k].name != req
        invariant k <= |commands|
        invariant forall j :: 0 <= j < k ==> commands[j].name != req
      {
        k := k + 1;
      }
      FindCommandIsFirst(commands, req, k);
      if k == |commands| {
        return Exit("Unknown command " + req + ".\n", 1);
      }
      o := commands[k].Run(argv);
    }

    /** The padding loop of `usage`: the longest command name. */
    method ComputePadding() returns (padding: nat)
      ensures padding == MaxOf(NameWidths(commands))
    {
      padding := 0;
      var i := 0;
      while i < |commands|
        invariant 0 <= i <= |commands|
        invariant padding == MaxOf(NameWidths(commands)[..i])
      {
        assert NameWidths(commands)[..i + 1][..i] == NameWidths(commands)[..i];
        if |commands[i].UsageShort()| > padding {
          padding := |commands[i].UsageShort()|;
        }
        i := i + 1;
      }
      assert NameWidths(commands)[..|commands|] == NameWidths(commands);
    }

    /** The printing loop of `usage`: one line per command. */
    method CommandLines(padding: int) returns (body: string)
      ensures body == ManagerLines(commands, padding)
    {
      body := "";
      var i := 0;
      while i < |commands|
        invariant 0 <= i <= |commands|
        invariant body == ManagerLines(commands[..i], padding)
      {
        assert commands[..i + 1][..i] == commands[..i];
        body := body + commands[i].LongUsage(padding) + "\n";
        i := i + 1;
      }
      assert commands[..|commands|] == commands;
    }

    /** `usage`: the text it prints. */
    method Usage(argv: seq<string>) returns (text: string)
      requires |argv| >= 1
      ensures text == "usage: " + argv[0] + " command [action] [options]\n\nAvailable commands:\n"
                      + ManagerLines(commands, MaxOf(NameWidths(commands)))
    {
      var padding := ComputePadding();
      var body := CommandLines(padding);
      text := "usage: " + argv[0] + " command [action] [options]\n\nAvailable commands:\n" + body;
    }
  }

  /** The length of each command's `usage_short`, its name. */
  function NameWidths(commands: seq<Command>): (ws: seq<nat>)
    ensures |ws| == |commands|
    ensures forall i :: 0 <= i < |commands| ==> ws[i] == |commands[i].name|
  {
    if commands == [] then [] else NameWidths(commands[..|commands| - 1]) + [|commands[|commands| - 1].name|]
  }

  /** The command lines of the manager's usage message. */
  function ManagerLines(commands: seq<Command>, padding: int): string
  {
    if commands == [] then ""
    else ManagerLines(commands[..|commands| - 1], padding) + commands[|commands| - 1].LongUsage(padding) + "\n"
  }

  /** With the manager's padding, the `  -  ` before each command's
      description starts in the same column on every line. */
  lemma CommandColumnsAlign(commands: seq<Command>, i: nat)
    requires i < |commands|
    ensures var p := MaxOf(NameWidths(commands));
            commands[i].LongUsage(p)[4 + p..9 + p] == "  -  "
  {
    var p := MaxOf(NameWidths(commands));
    NameFits(commands, i);
    var j := LJust(commands[i].name, p);
    assert |j| == p;
    assert commands[i].LongUsage(p) == ("    " + j) + "  -  " + (commands[i].description + ".");
    MiddleSlice("    " + j, "  -  ", commands[i].description + ".");
  }

  lemma NameFits(commands: seq<Command>, i: nat)
    requires i < |commands|
    ensures |commands[i].name| <= MaxOf(NameWidths(commands))
  {
    MaxOfIsMax(NameWidths(commands));
  }

  lemma MiddleSlice(x: string, y: string, z: string)
    ensures (x + y + z)[|x|..|x| + |y|] == y
  {
  }
}
