/**
 * Functions as objects: `shout` and `whisper`, the factory `getTalk` that
 * returns one of them, and a caller that runs a function it is handed.
 */
module FunctionObjects {

  import opened Text

  /** The default argument of `shout` and `whisper`. */
  const DefaultWord := "yes"

  /** The word capitalised, followed by an exclamation mark. */
  function Shout(word: string): (r: string)
    ensures |r| == |word| + 1 && r[|word|] == '!'
    ensures r[..|word|] == Capitalize(word)
  {
    Capitalize(word) + "!"
  }

  /** The word in lower case, followed by three dots. */
  function Whisper(word: string): (r: string)
    ensures |r| == |word| + 3 && r[|word|..] == "..."
    ensures r[..|word|] == Lower(word)
  {
    Lower(word) + "..."
  }

  /** With the default word, shouting gives "Yes!" and whispering "yes...". */
  lemma DefaultTalk()
    ensures Shout(DefaultWord) == "Yes!"
    ensures Whisper(DefaultWord) == "yes..."
  {
    assert Capitalize(DefaultWord) == "Yes";
    assert Lower(DefaultWord) == "yes";
  }

  /**
   * Shouting and whispering differ only in the case of the first letter and
   * in the ending: the two stems agree once lower-cased.
   */
  lemma ShoutWhisperSameStem(word: string)
    ensures Lower(Shout(word)[..|word|]) == Whisper(word)[..|word|]
    ensures Shout(Shout(word)[..|word|]) == Shout(word)
  {
    CapitalizeIdempotent(word);
  }

  /** A function object: the name it was defined under and what calling it does. */
  datatype Talk = Talk(name: string, call: string -> string)

  /**
   * The function object `getTalk` returns: `shout` for the kind "shout" and
   * `whisper` for every other kind.
   */
  function GetTalk(kind: string): (t: Talk)
    ensures t.name == "shout" <==> kind == "shout"
    ensures t.name == "shout" || t.name == "whisper"
    ensures kind == "shout" ==> forall w :: t.call(w) == Shout(w)
    ensures kind != "shout" ==> forall w :: t.call(w) == Whisper(w)
  {
    if kind == "shout" then Talk("shout", Shout) else Talk("whisper", Whisper)
  }

  /** The demo calls: the default kind shouts "Yes!", "whisper" whispers "yes...". */
  lemma GetTalkDemo()
    ensures GetTalk("shout").call(DefaultWord) == "Yes!"
    ensures GetTalk("whisper").call(DefaultWord) == "yes..."
  {
    DefaultTalk();
  }

  /** `talk` defines `whisper` and prints its default result. */
  function TalkLines(): (lines: seq<string>)
    ensures lines == ["yes..."]
  {
    DefaultTalk();
    [Whisper(DefaultWord)]
  }

  /** Prints a fixed line, then whatever the function it is handed returns. */
  function DoSomethingBefore(func: () -> string): (lines: seq<string>)
    ensures |lines| == 2 && lines[1] == func()
    ensures lines[0] == "I do something before then I call the function you gave me"
  {
    ["I do something before then I call the function you gave me", func()]
  }

  /** `scream` returns its cry; it prints nothing. */
  function Scream(): (cry: string)
    ensures cry == "Aaaah!"
  {
    "Aaaah!"
  }

  lemma DoSomethingBeforeScream()
    ensures DoSomethingBefore(Scream) == ["I do something before then I call the function you gave me", "Aaaah!"]
  {
  }
}

/**
 * Decorators. A target is a named function from a call (positional and keyword
 * arguments) to a run: the events it printed and whether it returned a value or
 * raised. Each decorator maps a target to its wrapper.
 */
module Decorators {

  import opened Wrappers
  import opened Text

  /** The argument and result values the examples pass around. */
  datatype Value = IntV(i: int) | StrV(s: string) | NoneV

  /** Python's `repr` of a value. */
  function Repr(v: Value): (r: string)
    ensures v.StrV? ==> |r| == |v.s| + 2 && r[0] == '\'' && r[|r| - 1] == '\'' && r[1..|r| - 1] == v.s
    ensures v.IntV? ==> ParseInt(r) == Some(v.i)
  {
    match v
    case IntV(i) => IntToStringRoundTrip(i); IntToString(i)
    case StrV(s) => "'" + s + "'"
    case NoneV => "None"
  }

  /** Python's `str` of a value, as `print` shows it. */
  function Str(v: Value): string {
    match v
    case IntV(i) => IntToString(i)
    case StrV(s) => s
    case NoneV => "None"
  }

  /** The arguments of one call. */
  datatype Call = Call(args: seq<Value>, kwargs: seq<(string, Value)>)

  const NoArgs := Call([], [])

  /** What a run prints: a line, or the timing report of `benchmark` or `timer` for a function name. */
  datatype Event = Print(text: string) | BenchmarkReport(name: string) | TimerReport(name: string)

  datatype Outcome = Returned(value: Value) | Raised(error: PyError)

  datatype Run = Run(trace: seq<Event>, outcome: Outcome)

  /** A function object: its `__name__` and what calling it does. */
  datatype Func = Func(name: string, body: Call -> Run)

  /** Calling a function that takes no arguments with some arguments raises TypeError. */
  const ArityError := PyError("TypeError", "unexpected arguments")

  // ---------------------------------------------------------------------
  // The decorators

  datatype Decorator =
    | ShinyNew      // my_shiny_new_decorator
    | Bread
    | Ingredients
    | Benchmark
    | Logging
    | Timer
    | Debug
    | SlowDown

  /** The wrappers that take no arguments and print one line before and one after the call. */
  predicate Around(d: Decorator) {
    d.ShinyNew? || d.Bread? || d.Ingredients?
  }

  /** The wrappers that take any arguments and return what the target returns. */
  predicate PassesThrough(d: Decorator) {
    !Around(d)
  }

  /** The wrappers built with `functools.wraps`, which copy the target's name. */
  predicate Wraps(d: Decorator) {
    d.Timer? || d.Debug? || d.SlowDown?
  }

  /** The name of a wrapper that does not copy the target's name. */
  function WrapperName(d: Decorator): string
    requires !Wraps(d)
  {
    if d.ShinyNew? then "the_wrapper_around_the_original_function" else "wrapper"
  }

  function PreLine(d: Decorator): string
    requires Around(d)
  {
    match d
    case ShinyNew => "Before the function runs"
    case Bread => "</''''''\\>"
    case Ingredients => "#tomatoes#"
  }

  function PostLine(d: Decorator): string
    requires Around(d)
  {
    match d
    case ShinyNew => "After the function runs"
    case Bread => "<\\______/>"
    case Ingredients => "~salad~"
  }

  /** Python's repr of the positional-argument tuple: "()", "(a,)", "(a, b)". */
  function TupleRepr(args: seq<Value>): (r: string)
    ensures |args| == 1 ==> r == "(" + Repr(args[0]) + ",)"
  {
    if |args| == 1 then "(" + Repr(args[0]) + ",)"
    else "(" + Join(", ", ReprAll(args)) + ")"
  }

  /** Python's repr of the keyword-argument dictionary: "{}" or "{'k': v, ...}". */
  function DictRepr(kwargs: seq<(string, Value)>): (r: string)
    ensures kwargs == [] ==> r == "{}"
  {
    "{" + Join(", ", seq(|kwargs|, k requires 0 <= k < |kwargs| => Repr(StrV(kwargs[k].0)) + ": " + Repr(kwargs[k].1))) + "}"
  }

  function ReprAll(args: seq<Value>): (r: seq<string>)
    ensures |r| == |args| && forall k :: 0 <= k < |args| ==> r[k] == Repr(args[k])
  {
    seq(|args|, k requires 0 <= k < |args| => Repr(args[k]))
  }

  /** What `logging` prints after the call: the name, the argument tuple and the keyword dictionary. */
  function LogLine(name: string, c: Call): string {
    name + " " + TupleRepr(c.args) + " " + DictRepr(c.kwargs)
  }

  /** The parts of `debug`'s signature: the argument reprs, then one "k=repr(v)" per keyword argument. */
  function SignatureParts(c: Call): (parts: seq<string>)
    ensures |parts| == |c.args| + |c.kwargs|
    ensures forall k :: 0 <= k < |c.args| ==> parts[k] == Repr(c.args[k])
    ensures forall k :: 0 <= k < |c.kwargs| ==> parts[|c.args| + k] == c.kwargs[k].0 + "=" + Repr(c.kwargs[k].1)
  {
    ReprAll(c.args) + seq(|c.kwargs|, k requires 0 <= k < |c.kwargs| => c.kwargs[k].0 + "=" + Repr(c.kwargs[k].1))
  }

  function Signature(c: Call): string {
    Join(", ", SignatureParts(c))
  }

  function CallingLine(name: string, c: Call): string {
    "Calling " + name + "(" + Signature(c) + ")"
  }

  function ReturnedLine(name: string, v: Value): string {
    name + "() returned " + Repr(v)
  }

  /** The events a wrapper adds after the inner run; none when the inner run raised. */
  function After(r: Run, post: seq<Event>): Run {
    if r.outcome.Raised? then r else Run(r.trace + post, r.outcome)
  }

  /**
   * A wrapper taking no arguments: prints its first line, calls the target with no
   * arguments, prints its last line and returns None. If the target raises, the
   * exception propagates and the last line is not printed.
   */
  function AroundBody(pre: string, post: string, f: Func, c: Call): Run {
    if c != NoArgs then Run([], Raised(ArityError))
    else
      var r := f.body(NoArgs);
      if r.outcome.Raised? then Run([Print(pre)] + r.trace, r.outcome)
      else Run([Print(pre)] + r.trace + [Print(post)], Returned(NoneV))
  }

  /** `debug`: prints the call with its signature, calls, then prints the returned value's repr. */
  function DebugBody(f: Func, c: Call): Run {
    var r := f.body(c);
    var logged := Run([Print(CallingLine(f.name, c))] + r.trace, r.outcome);
    if r.outcome.Raised? then logged
    else After(logged, [Print(ReturnedLine(f.name, r.outcome.value))])
  }

  /** The wrapper a decorator returns for a target. Decorating runs nothing. */
  function Decorate(d: Decorator, f: Func): (w: Func)
    ensures Wraps(d) ==> w.name == f.name
    ensures !Wraps(d) ==> w.name == WrapperName(d)
  {
    match d
    case ShinyNew => Func("the_wrapper_around_the_original_function", c => AroundBody(PreLine(d), PostLine(d), f, c))
    case Bread => Func("wrapper", c => AroundBody(PreLine(d), PostLine(d), f, c))
    case Ingredients => Func("wrapper", c => AroundBody(PreLine(d), PostLine(d), f, c))
    case Benchmark => Func("wrapper", c => After(f.body(c), [BenchmarkReport(f.name)]))
    case Logging => Func("wrapper", c => After(f.body(c), [Print(LogLine(f.name, c))]))
    case Timer => Func(f.name, c => After(f.body(c), [TimerReport(f.name)]))
    case Debug => Func(f.name, c => DebugBody(f, c))
    case SlowDown => Func(f.name, c => f.body(c))
  }

  /**
   * The name a stack of layers gives a function named `name`: a `functools.wraps`
   * layer passes on the name of what it wraps, any other layer names its wrapper.
   */
  function StackNameOf(ds: seq<Decorator>, name: string): string
    decreases |ds|
  {
    if ds == [] then name
    else if Wraps(ds[0]) then StackNameOf(ds[1..], name)
    else WrapperName(ds[0])
  }

  /**
   * Decorators listed top to bottom above a definition: the last one is applied
   * first. The stacked function's name depends only on the layers and the target's name.
   */
  function Stack(ds: seq<Decorator>, f: Func): (g: Func)
    ensures g.name == StackNameOf(ds, f.name)
    decreases |ds|
  {
    if ds == [] then f else Decorate(ds[0], Stack(ds[1..], f))
  }

  // ---------------------------------------------------------------------
  // Properties of the wrappers

  /** A pass-through wrapper returns, or raises, exactly what the target does for the same call. */
  lemma PassThroughResult(d: Decorator, f: Func, c: Call)
    requires PassesThrough(d)
    ensures Decorate(d, f).body(c).outcome == f.body(c).outcome
  {
    var r := f.body(c);
    if d.Debug? {
      assert DebugBody(f, c).outcome == r.outcome;
    }
  }

  /** A pass-through wrapper prints after the target's events; the target's events come unchanged. */
  lemma PassThroughTrace(d: Decorator, f: Func, c: Call)
    requires PassesThrough(d)
    ensures var t, inner := Decorate(d, f).body(c).trace, f.body(c).trace;
            |t| >= |inner| && (if d.Debug? then t[1..|inner| + 1] == inner else t[..|inner|] == inner)
    ensures f.body(c).outcome.Raised? && !d.Debug? ==> Decorate(d, f).body(c).trace == f.body(c).trace
  {
  }

  /** Every stack of pass-through wrappers returns exactly what the target returns. */
  lemma {:induction false} StackPassesResult(ds: seq<Decorator>, f: Func, c: Call)
    requires forall k :: 0 <= k < |ds| ==> PassesThrough(ds[k])
    ensures Stack(ds, f).body(c).outcome == f.body(c).outcome
    decreases |ds|
  {
    if ds != [] {
      StackPassesResult(ds[1..], f, c);
      PassThroughResult(ds[0], Stack(ds[1..], f), c);
    }
  }

  /**
   * A stack keeps the target's name exactly when every layer is built with
   * `functools.wraps`; otherwise it takes the wrapper name of the outermost layer
   * that is not, whatever lies above or below it.
   */
  lemma {:induction false} StackName(ds: seq<Decorator>, f: Func)
    ensures (forall k :: 0 <= k < |ds| ==> Wraps(ds[k])) ==> Stack(ds, f).name == f.name
    ensures forall k :: 0 <= k < |ds| && !Wraps(ds[k]) && (forall j :: 0 <= j < k ==> Wraps(ds[j])) ==>
              Stack(ds, f).name == WrapperName(ds[k])
    decreases |ds|
  {
    FirstNonWraps(ds, f.name);
  }

  /** StackNameOf is the wrapper name of the first layer that is not a wraps layer, if there is one. */
  lemma {:induction false} FirstNonWraps(ds: seq<Decorator>, name: string)
    ensures (forall k :: 0 <= k < |ds| ==> Wraps(ds[k])) ==> StackNameOf(ds, name) == name
    ensures forall k :: 0 <= k < |ds| && !Wraps(ds[k]) && (forall j :: 0 <= j < k ==> Wraps(ds[j])) ==>
              StackNameOf(ds, name) == WrapperName(ds[k])
    decreases |ds|
  {
    if ds != [] {
      var rest := ds[1..];
      FirstNonWraps(rest, name);
      if Wraps(ds[0]) {
        assert forall k :: 0 <= k < |rest| ==> rest[k] == ds[k + 1];
        forall k | 0 <= k < |ds| && !Wraps(ds[k]) && (forall j :: 0 <= j < k ==> Wraps(ds[j]))
          ensures StackNameOf(ds, name) == WrapperName(ds[k])
        {
          assert k >= 1 && rest[k - 1] == ds[k];
          assert forall j :: 0 <= j < k - 1 ==> Wraps(rest[j]) by {
            forall j | 0 <= j < k - 1 ensures Wraps(rest[j]) {
              assert rest[j] == ds[j + 1];
            }
          }
        }
      } else {
        forall k | 0 <= k < |ds| && !Wraps(ds[k]) && (forall j :: 0 <= j < k ==> Wraps(ds[j]))
          ensures StackNameOf(ds, name) == WrapperName(ds[k])
        {
          if k > 0 {
            assert false;
          }
        }
      }
    }
  }

  /** The first lines of a stack of around-wrappers, outermost first. */
  function PreLines(ds: seq<Decorator>): seq<Event>
    requires forall k :: 0 <= k < |ds| ==> Around(ds[k])
    decreases |ds|
  {
    if ds == [] then [] else [Print(PreLine(ds[0]))] + PreLines(ds[1..])
  }

  /** The last lines of a stack of around-wrappers, innermost first. */
  function PostLines(ds: seq<Decorator>): seq<Event>
    requires forall k :: 0 <= k < |ds| ==> Around(ds[k])
    decreases |ds|
  {
    if ds == [] then [] else PostLines(ds[1..]) + [Print(PostLine(ds[0]))]
  }

  /** Every layer of a non-empty stack of around-wrappers below the outermost is an around-wrapper too. */
  lemma AroundRest(ds: seq<Decorator>)
    requires ds != [] && forall k :: 0 <= k < |ds| ==> Around(ds[k])
    ensures forall k :: 0 <= k < |ds[1..]| ==> Around(ds[1..][k])
  {
    forall k | 0 <= k < |ds[1..]| ensures Around(ds[1..][k]) {
      assert ds[1..][k] == ds[k + 1];
    }
  }

  /**
   * Onion order: called with no arguments, a stack of around-wrappers over a target
   * that returns prints every layer's first line from the outside in, then the
   * target's events, then every layer's last line from the inside out.
   */
  lemma {:induction false} OnionOrder(ds: seq<Decorator>, f: Func)
    requires forall k :: 0 <= k < |ds| ==> Around(ds[k])
    requires f.body(NoArgs).outcome.Returned?
    ensures Stack(ds, f).body(NoArgs).trace == PreLines(ds) + f.body(NoArgs).trace + PostLines(ds)
    ensures Stack(ds, f).body(NoArgs).outcome.Returned?
    decreases |ds|
  {
    if ds != [] {
      var rest := ds[1..];
      AroundRest(ds);
      OnionOrder(rest, f);
      var pre, post := Print(PreLine(ds[0])), Print(PostLine(ds[0]));
      OneLayer(ds[0], Stack(rest, f));
      Regroup([pre], PreLines(rest), f.body(NoArgs).trace, PostLines(rest), [post]);
    }
  }

  /**
   * If the target raises, every layer's first line is printed from the outside in,
   * then the target's events; no last line is printed and the exception comes out
   * unchanged.
   */
  lemma {:induction false} OnionOrderRaised(ds: seq<Decorator>, f: Func)
    requires forall k :: 0 <= k < |ds| ==> Around(ds[k])
    requires f.body(NoArgs).outcome.Raised?
    ensures Stack(ds, f).body(NoArgs).trace == PreLines(ds) + f.body(NoArgs).trace
    ensures Stack(ds, f).body(NoArgs).outcome == f.body(NoArgs).outcome
    decreases |ds|
  {
    if ds != [] {
      var rest := ds[1..];
      AroundRest(ds);
      OnionOrderRaised(rest, f);
      OneLayer(ds[0], Stack(rest, f));
      Regroup([Print(PreLine(ds[0]))], PreLines(rest), f.body(NoArgs).trace, [], []);
    }
  }

  /** One around-layer called with no arguments: its first line, the inner run, its last line unless the inner run raised. */
  lemma OneLayer(d: Decorator, g: Func)
    requires Around(d)
    ensures var inner := g.body(NoArgs);
            Decorate(d, g).body(NoArgs)
            == if inner.outcome.Raised? then Run([Print(PreLine(d))] + inner.trace, inner.outcome)
               else Run([Print(PreLine(d))] + inner.trace + [Print(PostLine(d))], Returned(NoneV))
  {
    assert Decorate(d, g).body(NoArgs) == AroundBody(PreLine(d), PostLine(d), g, NoArgs);
  }

  lemma Regroup<T>(a: seq<T>, b: seq<T>, c: seq<T>, d: seq<T>, e: seq<T>)
    ensures a + (b + c + d) + e == (a + b) + c + (d + e)
    ensures a + (b + c + d) == (a + b) + c + d
  {
  }

  /** An around-wrapper called with arguments raises TypeError before printing anything. */
  lemma AroundRejectsArguments(d: Decorator, f: Func, c: Call)
    requires Around(d) && c != NoArgs
    ensures Decorate(d, f).body(c) == Run([], Raised(ArityError))
  {
  }

  // ---------------------------------------------------------------------
  // The example targets

  /** A function of no arguments that prints one line and returns None. */
  function Printer(name: string, line: string): (g: Func)
    ensures g.name == name && g.body(NoArgs) == Run([Print(line)], Returned(NoneV))
    ensures forall c :: c != NoArgs ==> g.body(c) == Run([], Raised(ArityError))
  {
    Func(name, c => if c == NoArgs then Run([Print(line)], Returned(NoneV)) else Run([], Raised(ArityError)))
  }

  function StandAlone(): (g: Func)
    ensures g.name == "a_stand_alone_function"
    ensures g.body(NoArgs) == Run([Print("I am a stand alone function, don’t you dare modify me")], Returned(NoneV))
  {
    Printer("a_stand_alone_function", "I am a stand alone function, don’t you dare modify me")
  }

  function AnotherStandAlone(): (g: Func)
    ensures g.name == "another_stand_alone_function"
    ensures g.body(NoArgs) == Run([Print("Leave me alone")], Returned(NoneV))
  {
    Printer("another_stand_alone_function", "Leave me alone")
  }

  /**
   * `sandwich(food='--ham--')` prints its food: the default with no arguments, or
   * the food given by position or by keyword.
   */
  function Sandwich(): (g: Func)
    ensures g.name == "sandwich" && g.body(NoArgs) == Run([Print("--ham--")], Returned(NoneV))
    ensures forall v :: g.body(Call([v], [])) == Run([Print(Str(v))], Returned(NoneV))
    ensures forall v :: g.body(Call([], [("food", v)])) == Run([Print(Str(v))], Returned(NoneV))
  {
    Func("sandwich", c =>
      if c == NoArgs then Run([Print("--ham--")], Returned(NoneV))
      else if |c.args| == 1 && c.kwargs == [] then Run([Print(Str(c.args[0]))], Returned(NoneV))
      else if c.args == [] && |c.kwargs| == 1 && c.kwargs[0].0 == "food" then Run([Print(Str(c.kwargs[0].1))], Returned(NoneV))
      else Run([], Raised(ArityError)))
  }

  /** The shiny new decorator around a stand-alone function: before line, the function's line, after line. */
  lemma ShinyStandAlone()
    ensures Decorate(ShinyNew, StandAlone()).body(NoArgs).trace
            == [Print("Before the function runs"), Print("I am a stand alone function, don’t you dare modify me"), Print("After the function runs")]
    ensures Decorate(ShinyNew, AnotherStandAlone()).body(NoArgs).trace
            == [Print("Before the function runs"), Print("Leave me alone"), Print("After the function runs")]
  {
    OnionOrder([ShinyNew], StandAlone());
    OnionOrder([ShinyNew], AnotherStandAlone());
  }

  /** `bread(ingredients(sandwich))` prints the bread top, the fillings around the ham, then the bread bottom. */
  lemma BreadIngredientsSandwich()
    ensures Decorate(Bread, Decorate(Ingredients, Sandwich())).body(NoArgs)
            == Run([Print("</''''''\\>"), Print("#tomatoes#"), Print("--ham--"), Print("~salad~"), Print("<\\______/>")], Returned(NoneV))
  {
    var ds := [Bread, Ingredients];
    OnionOrder(ds, Sandwich());
    assert ds[1..][1..] == [];
    assert Stack(ds, Sandwich()) == Decorate(Bread, Decorate(Ingredients, Sandwich()));
    assert PreLines(ds) == [Print("</''''''\\>"), Print("#tomatoes#")];
    assert PostLines(ds) == [Print("~salad~"), Print("<\\______/>")];
  }

  /** `debug` around a target that returns v: the calling line, the target's events, the returned line. */
  lemma DebugLines(f: Func, c: Call)
    requires f.body(c).outcome.Returned?
    ensures var r := Decorate(Debug, f).body(c);
            |r.trace| == |f.body(c).trace| + 2
            && r.trace[0] == Print("Calling " + f.name + "(" + Signature(c) + ")")
            && r.trace[|r.trace| - 1] == Print(f.name + "() returned " + Repr(f.body(c).outcome.value))
  {
  }

  /** With one positional and one keyword argument the signature is "repr(a), k=repr(v)". */
  lemma DebugSignatureShape(a: Value, k: string, v: Value)
    ensures Signature(Call([a], [(k, v)])) == Repr(a) + ", " + k + "=" + Repr(v)
  {
    var parts := SignatureParts(Call([a], [(k, v)]));
    assert parts == [Repr(a)] + [k + "=" + Repr(v)];
    JoinSnoc(", ", [Repr(a)], k + "=" + Repr(v));
  }

  // ---------------------------------------------------------------------
  // The counter

  /** `counter`'s wrapper: its `count` attribute starts at 0 and is kept across calls. */
  class Counter {
    const func: Func
    var count: nat

    constructor (func: Func)
      ensures this.func == func && count == 0
    {
      this.func := func;
      count := 0;
    }

    /**
     * Counts the call before running the target, so a call whose target raises is
     * counted too; after a completed call it prints the target's name and the count.
     */
    method Call(c: Call) returns (r: Run)
      modifies this
      ensures count == old(count) + 1
      ensures r.outcome == func.body(c).outcome
      ensures r == After(func.body(c), [Print(UsedLine(func.name, count))])
    {
      count := count + 1;
      var res := func.body(c);
      r := After(res, [Print(UsedLine(func.name, count))]);
    }
  }

  function UsedLine(name: string, count: int): string {
    name + " has been used: " + IntToString(count) + "x"
  }

  /**
   * Calls a counter once per call in the list. Afterwards the count has grown by
   * the number of calls, and the k-th completed call reported the count before
   * the calls plus k + 1.
   */
  method CallEach(counter: Counter, calls: seq<Call>) returns (runs: seq<Run>)
    modifies counter
    ensures counter.count == old(counter.count) + |calls|
    ensures |runs| == |calls|
    ensures forall k :: 0 <= k < |calls| ==>
              runs[k] == After(counter.func.body(calls[k]), [Print(UsedLine(counter.func.name, old(counter.count) + k + 1))])
  {
    runs := [];
    for i := 0 to |calls|
      invariant counter.count == old(counter.count) + i
      invariant |runs| == i
      invariant forall k :: 0 <= k < i ==>
                  runs[k] == After(counter.func.body(calls[k]), [Print(UsedLine(counter.func.name, old(counter.count) + k + 1))])
    {
      var r := counter.Call(calls[i]);
      runs := runs + [r];
    }
  }

  /**
   * What one completed call of counter over benchmark over logging prints after the
   * target's own events, for one string argument: the logging line with the target's
   * name, benchmark's report naming the logging wrapper, and the counter's line
   * naming the benchmark wrapper.
   */
  function ProfiledLines(name: string, arg: string, count: nat): seq<Event> {
    [Print(LogLine(name, Call([StrV(arg)], []))), BenchmarkReport("wrapper"), Print(UsedLine("wrapper", count))]
  }

  /** The outer two layers print "wrapper", never the target's name. */
  lemma ProfiledLinesText(arg: string)
    ensures ProfiledLines("reverse_string", arg, 1)
            == [Print("reverse_string ('" + arg + "',) {}"), BenchmarkReport("wrapper"), Print("wrapper has been used: 1x")]
    ensures ProfiledLines("reverse_string", arg, 2)
            == [Print("reverse_string ('" + arg + "',) {}"), BenchmarkReport("wrapper"), Print("wrapper has been used: 2x")]
  {
    UsedLineText();
    LogLineOneString("reverse_string", arg);
    assert "reverse_string" + " ('" == "reverse_string ('";
  }

  lemma UsedLineText()
    ensures UsedLine("wrapper", 1) == "wrapper has been used: 1x"
    ensures UsedLine("wrapper", 2) == "wrapper has been used: 2x"
  {
    assert IntToString(1) == "1" && IntToString(2) == "2";
  }

  /** logging shows a single string argument as a one-element tuple and no keywords as "{}". */
  lemma LogLineOneString(name: string, arg: string)
    ensures LogLine(name, Call([StrV(arg)], [])) == name + " ('" + arg + "',) {}"
  {
    var c := Call([StrV(arg)], []);
    assert TupleRepr(c.args) == "('" + arg + "',)";
    assert DictRepr(c.kwargs) == "{}";
  }

  /** A counter over benchmark over logging, called once with one string. */
  method CountedProfiledCall(counter: Counter, target: Func, arg: string) returns (r: Run)
    requires counter.func == Decorate(Benchmark, Decorate(Logging, target))
    modifies counter
    ensures counter.count == old(counter.count) + 1
    ensures r.outcome == target.body(Call([StrV(arg)], [])).outcome
    ensures r == After(target.body(Call([StrV(arg)], [])), ProfiledLines(target.name, arg, counter.count))
  {
    var c := Call([StrV(arg)], []);
    var t := target.body(c);
    var logged := After(t, [Print(LogLine(target.name, c))]);
    assert Decorate(Logging, target).body(c) == logged;
    assert counter.func.body(c) == After(logged, [BenchmarkReport("wrapper")]);
    r := counter.Call(c);
    if t.outcome.Returned? {
      assert r.trace == t.trace + [Print(LogLine(target.name, c))] + [BenchmarkReport("wrapper")] + [Print(UsedLine("wrapper", counter.count))];
    }
  }

  /**
   * `reverse_string` decorated with counter, benchmark and logging, called twice:
   * the demo passes two palindromes, "Able was I ere I saw Elba" and a long one
   * ending "a canal: Panama!". Whatever the target returns comes out unchanged.
   * Only the innermost layer reports the target's own name: benchmark reports the
   * logging wrapper's name "wrapper", and the counter reports "wrapper" too, with
   * 1x then 2x.
   */
  method CountedReverseString(target: Func, first: string, second: string) returns (r1: Run, r2: Run)
    requires target.name == "reverse_string"
    ensures r1.outcome == target.body(Call([StrV(first)], [])).outcome
    ensures r2.outcome == target.body(Call([StrV(second)], [])).outcome
    ensures r1 == After(target.body(Call([StrV(first)], [])), ProfiledLines("reverse_string", first, 1))
    ensures r2 == After(target.body(Call([StrV(second)], [])), ProfiledLines("reverse_string", second, 2))
  {
    var counter := new Counter(Decorate(Benchmark, Decorate(Logging, target)));
    r1 := CountedProfiledCall(counter, target, first);
    r2 := CountedProfiledCall(counter, target, second);
  }
}
