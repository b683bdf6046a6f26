/**
 * The command-line flags of dialang (dialang/src/options.rs): the argument
 * list is folded, argument by argument and letter by letter, into four
 * booleans. The printed messages and the help text are not modelled; the
 * argument list is a parameter instead of the process environment.
 */
module CliOptions {

  /** The four flags as a value: the state the methods below change. */
  datatype Flags = Flags(eval: bool, classDiag: bool, commDiag: bool, seqDiag: bool)

  /** The three diagram kinds a flag can request. */
  datatype Diagram = ClassDiagram | CommDiagram | SeqDiagram

  function Get(f: Flags, d: Diagram): bool
  {
    match d
    case ClassDiagram => f.classDiag
    case CommDiagram => f.commDiag
    case SeqDiagram => f.seqDiag
  }

  /** `f` with the flag of `d` raised. */
  function Raise(f: Flags, d: Diagram): Flags
  {
    match d
    case ClassDiagram => f.(classDiag := true)
    case CommDiagram => f.(commDiag := true)
    case SeqDiagram => f.(seqDiag := true)
  }

  /** The long argument that requests `d`. */
  function LongName(d: Diagram): string
  {
    match d
    case ClassDiagram => "--class"
    case CommDiagram => "--comm"
    case SeqDiagram => "--seq"
  }

  /** The letter that requests `d` inside a single-dash argument. */
  function Letter(d: Diagram): char
  {
    match d
    case ClassDiagram => 'c'
    case CommDiagram => 'm'
    case SeqDiagram => 's'
  }

  /** `Options::default`. */
  function DefaultFlags(): Flags
  {
    Flags(false, true, false, false)
  }

  /** What `fail` and `help` do to the flags: `eval` is cleared and nothing else changes. */
  function Silenced(f: Flags): Flags
  {
    f.(eval := false)
  }

  /** `handle_single_letter_arg` on the flags. */
  function LetterStep(f: Flags, c: char): Flags
  {
    match c
    case 'h' => Silenced(f)
    case 'c' => Raise(f, ClassDiagram)
    case 'm' => Raise(f, CommDiagram)
    case 's' => Raise(f, SeqDiagram)
    case _ => Silenced(f)
  }

  /** The letters `cs` handled in order: the flags after `|cs|` rounds of the letter loop. */
  function Letters(f: Flags, cs: string): Flags
  {
    if |cs| == 0 then f else LetterStep(Letters(f, cs[..|cs| - 1]), cs[|cs| - 1])
  }

  /** `arg.starts_with("--")`. */
  predicate IsLong(arg: string)
  {
    |arg| >= 2 && arg[0] == '-' && arg[1] == '-'
  }

  /** An argument whose letters after its one dash are handled one by one. */
  predicate IsShortGroup(arg: string)
  {
    |arg| >= 1 && arg[0] == '-' && !IsLong(arg)
  }

  /** `handle_arg` on the flags. */
  function HandleArgFlags(f: Flags, arg: string): Flags
  {
    if IsShortGroup(arg) then Letters(f, arg[1..]) else Silenced(f)
  }

  /** One round of the argument loop of `load`. */
  function ArgStep(f: Flags, arg: string): Flags
  {
    if arg == "--help" then Silenced(f)
    else if arg == LongName(ClassDiagram) then Raise(f, ClassDiagram)
    else if arg == LongName(CommDiagram) then Raise(f, CommDiagram)
    else if arg == LongName(SeqDiagram) then Raise(f, SeqDiagram)
    else HandleArgFlags(f, arg)
  }

  /** The arguments handled in order: the flags after `|args|` rounds of the argument loop. */
  function ArgsFold(f: Flags, args: seq<string>): Flags
  {
    if |args| == 0 then f else ArgStep(ArgsFold(f, args[..|args| - 1]), args[|args| - 1])
  }

  /** The fallback at the end of `load`: with no diagram requested, all three are. */
  function Fallback(f: Flags): Flags
  {
    if !(f.classDiag || f.commDiag || f.seqDiag) then
      Raise(Raise(Raise(f, ClassDiagram), CommDiagram), SeqDiagram)
    else f
  }

  /** `Options::load` on the flags. */
  function LoadFlags(args: seq<string>): Flags
  {
    Fallback(ArgsFold(DefaultFlags(), args))
  }

  /** Whether `arg` asks for diagram `d`: its long name, or its letter in a single-dash group. */
  predicate Requests(arg: string, d: Diagram)
  {
    arg == LongName(d) || (IsShortGroup(arg) && Letter(d) in arg[1..])
  }

  /** Whether some argument of `args` asks for diagram `d`. */
  predicate Requested(args: seq<string>, d: Diagram)
  {
    exists i :: 0 <= i < |args| && Requests(args[i], d)
  }

  /** `g` keeps every diagram flag `f` has and sets `eval` only where `f` has it. */
  predicate Grows(f: Flags, g: Flags)
  {
    (f.classDiag ==> g.classDiag) && (f.commDiag ==> g.commDiag) && (f.seqDiag ==> g.seqDiag) &&
    (g.eval ==> f.eval)
  }

  /** A letter raises the flag it names, and only that one. */
  lemma LetterStepFlag(f: Flags, c: char, d: Diagram)
    ensures Get(LetterStep(f, c), d) <==> Get(f, d) || c == Letter(d)
    ensures Grows(f, LetterStep(f, c))
    ensures LetterStep(f, c).eval ==> c in "cms"
  {
  }

  /** After a group of letters, a flag is set exactly when it was before or its letter occurs. */
  lemma {:induction false} LettersFlag(f: Flags, cs: string, d: Diagram)
    ensures Get(Letters(f, cs), d) <==> Get(f, d) || Letter(d) in cs
    ensures Grows(f, Letters(f, cs))
    decreases |cs|
  {
    if |cs| > 0 {
      var init := cs[..|cs| - 1];
      LettersFlag(f, init, d);
      LetterStepFlag(Letters(f, init), cs[|cs| - 1], d);
      assert cs == init + [cs[|cs| - 1]];
    }
  }

  /**
   * One argument sets a diagram flag exactly when it requests that diagram;
   * `--class`, `--comm` and `--seq` therefore set exactly their own flag.
   */
  lemma ArgStepFlag(f: Flags, arg: string, d: Diagram)
    ensures Get(ArgStep(f, arg), d) <==> Get(f, d) || Requests(arg, d)
    ensures Grows(f, ArgStep(f, arg))
  {
    if arg != "--help" && arg != LongName(ClassDiagram) && arg != LongName(CommDiagram) && arg != LongName(SeqDiagram) {
      if IsShortGroup(arg) {
        LettersFlag(f, arg[1..], d);
      }
    }
  }

  /** `Grows` is transitive. */
  lemma GrowsTrans(f: Flags, g: Flags, h: Flags)
    requires Grows(f, g) && Grows(g, h)
    ensures Grows(f, h)
  {
  }

  /**
   * After the argument loop a diagram flag is set exactly when it was set
   * before or some argument requests it, and no flag is ever lowered:
   * the flags are monotone over the argument list.
   */
  lemma {:induction false} ArgsFoldFlag(f: Flags, args: seq<string>, d: Diagram)
    ensures Get(ArgsFold(f, args), d) <==> Get(f, d) || Requested(args, d)
    ensures Grows(f, ArgsFold(f, args))
    decreases |args|
  {
    if |args| > 0 {
      var init := args[..|args| - 1];
      var last := args[|args| - 1];
      ArgsFoldFlag(f, init, d);
      ArgStepFlag(ArgsFold(f, init), last, d);
      GrowsTrans(f, ArgsFold(f, init), ArgsFold(f, args));
      if Requested(args, d) {
        var i :| 0 <= i < |args| && Requests(args[i], d);
        if i < |args| - 1 {
          assert init[i] == args[i];
        }
      }
      if Requested(init, d) {
        var i :| 0 <= i < |init| && Requests(init[i], d);
        assert args[i] == init[i];
      }
      if Requests(last, d) {
        assert Requests(args[|args| - 1], d);
      }
    }
  }

  /** Handling more arguments never lowers a flag: a prefix's flags grow into the whole list's. */
  lemma {:induction false} ArgsFoldPrefixGrows(f: Flags, args: seq<string>, k: nat)
    requires k <= |args|
    ensures Grows(ArgsFold(f, args[..k]), ArgsFold(f, args))
    decreases |args| - k
  {
    if k < |args| {
      ArgsFoldPrefixGrows(f, args, k + 1);
      var g := ArgsFold(f, args[..k]);
      assert args[..k + 1][..k] == args[..k];
      ArgStepFlag(g, args[k], ClassDiagram);
      GrowsTrans(g, ArgsFold(f, args[..k + 1]), ArgsFold(f, args));
    } else {
      assert args[..k] == args;
    }
  }

  /**
   * The flags `load` returns: `eval` is false, `class_diag` is true, so the
   * fallback changes nothing, and the other two diagram flags are set
   * exactly when some argument requests them.
   */
  lemma LoadFlagsExactly(args: seq<string>)
    ensures Fallback(ArgsFold(DefaultFlags(), args)) == ArgsFold(DefaultFlags(), args)
    ensures LoadFlags(args) == Flags(false, true, Requested(args, CommDiagram), Requested(args, SeqDiagram))
  {
    ArgsFoldFlag(DefaultFlags(), args, ClassDiagram);
    ArgsFoldFlag(DefaultFlags(), args, CommDiagram);
    ArgsFoldFlag(DefaultFlags(), args, SeqDiagram);
  }

  /** `Options`: the flags as fields that the handlers set in place. */
  class Options {
    var eval: bool
    var classDiag: bool
    var commDiag: bool
    var seqDiag: bool

    function State(): Flags
      reads this
    {
      Flags(eval, classDiag, commDiag, seqDiag)
    }

    /** `Options::default`: only the class diagram is selected. */
    constructor ()
      ensures State() == DefaultFlags()
      ensures classDiag && !eval && !commDiag && !seqDiag
    {
      classDiag := true;
      eval := false;
      commDiag := false;
      seqDiag := false;
    }

    /** `fail`: `eval` is cleared; the message is not modelled. */
    method Fail()
      modifies this
      ensures State() == Silenced(old(State()))
      ensures !eval && classDiag == old(classDiag) && commDiag == old(commDiag) && seqDiag == old(seqDiag)
    {
      eval := false;
    }

    /** `help`: `eval` is cleared; the help text is not modelled. */
    method Help()
      modifies this
      ensures State() == Silenced(old(State()))
      ensures !eval && classDiag == old(classDiag) && commDiag == old(commDiag) && seqDiag == old(seqDiag)
    {
      eval := false;
    }

    method Class()
      modifies this
      ensures State() == Raise(old(State()), ClassDiagram)
    {
      classDiag := true;
    }

    method Comm()
      modifies this
      ensures State() == Raise(old(State()), CommDiagram)
    {
      commDiag := true;
    }

    method Seq()
      modifies this
      ensures State() == Raise(old(State()), SeqDiagram)
    {
      seqDiag := true;
    }

    /** `handle_single_letter_arg`. */
    method HandleSingleLetterArg(c: char)
      modifies this
      ensures State() == LetterStep(old(State()), c)
    {
      match c {
        case 'h' => Help();
        case 'c' => Class();
        case 'm' => Comm();
        case 's' => Seq();
        case _ => Fail();
      }
    }

    /** `handle_arg`: a single-dash argument is handled letter by letter; anything else fails. */
    method HandleArg(arg: string)
      modifies this
      ensures State() == HandleArgFlags(old(State()), arg)
    {
      if |arg| >= 1 && arg[0] == '-' {
        if |arg| >= 2 && arg[1] == '-' {
          Fail();
        } else {
          var rest := arg[1..];
          for i := 0 to |rest|
            invariant State() == Letters(old(State()), rest[..i])
          {
            HandleSingleLetterArg(rest[i]);
            assert rest[..i + 1][..i] == rest[..i];
          }
          assert rest[..|rest|] == rest;
        }
      } else {
        Fail();
      }
    }

    /** The `match` in the argument loop of `load`. */
    method HandleArgument(arg: string)
      modifies this
      ensures State() == ArgStep(old(State()), arg)
    {
      match arg {
        case "--help" => Help();
        case "--class" => Class();
        case "--comm" => Comm();
        case "--seq" => Seq();
        case _ => HandleArg(arg);
      }
    }
  }

  /** `Options::load` over the given argument list (the first element being the program's own name). */
  method Load(args: seq<string>) returns (options: Options)
    ensures fresh(options)
    ensures options.State() == LoadFlags(args)
  {
    options := new Options();
    for i := 0 to |args|
      invariant options.State() == ArgsFold(DefaultFlags(), args[..i])
    {
      options.HandleArgument(args[i]);
      assert args[..i + 1][..i] == args[..i];
    }
    assert args[..|args|] == args;
    if !(options.classDiag || options.commDiag || options.seqDiag) {
      options.Class();
      options.Comm();
      options.Seq();
    }
  }
}
