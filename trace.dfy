/** The trace package: a Tracer prints each call's arguments and a newline to
    the writer it was made with (New), or prints nothing at all (Off).
    Arguments are restricted to strings, which fmt.Fprint prints side by side
    with no separator. */
module Trace {

  /** The io.Writer a tracer prints to (a bytes.Buffer, standard output):
      everything written to it so far. */
  class Writer {
    var text: string

    constructor ()
      ensures text == ""
    {
      text := "";
    }

    method WriteString(s: string)
      modifies this
      ensures text == old(text) + s
    {
      text := text + s;
    }
  }

  /** What fmt.Fprint prints for string operands: all of them, back to back. */
  function Concat(args: seq<string>): string
    decreases |args|
  {
    if args == [] then "" else Concat(args[..|args| - 1]) + args[|args| - 1]
  }

  /** What one Trace call prints. */
  function Line(args: seq<string>): string
  {
    Concat(args) + "\n"
  }

  /** What a sequence of Trace calls prints, in call order. */
  function Printed(calls: seq<seq<string>>): string
    decreases |calls|
  {
    if calls == [] then "" else Printed(calls[..|calls| - 1]) + Line(calls[|calls| - 1])
  }

  /** Printing the arguments of `a` and then those of `b` prints `a + b`:
      no separator is ever inserted between string operands. */
  lemma {:induction false} ConcatAppend(a: seq<string>, b: seq<string>)
    ensures Concat(a + b) == Concat(a) + Concat(b)
    decreases |b|
  {
    if b != [] {
      var b' := b[..|b| - 1];
      assert (a + b)[..|a + b| - 1] == a + b';
      ConcatAppend(a, b');
    } else {
      assert a + b == a;
    }
  }

  /** One string argument is printed as it is; two are printed back to back. */
  lemma ConcatSmall(x: string, y: string)
    ensures Concat([x]) == x
    ensures Concat([x, y]) == x + y
  {
    assert [x, y][..1] == [x];
    assert [x][..0] == [];
  }

  /** One call prints one line. */
  lemma PrintedOne(args: seq<string>)
    ensures Printed([args]) == Line(args)
  {
    assert [args][..0] == [];
  }

  /** Later Trace calls only append: the output of `a` followed by `b` is the
      output of `a`, unchanged, followed by the output of `b`. */
  lemma {:induction false} PrintedAppend(a: seq<seq<string>>, b: seq<seq<string>>)
    ensures Printed(a + b) == Printed(a) + Printed(b)
    decreases |b|
  {
    if b != [] {
      var b' := b[..|b| - 1];
      assert (a + b)[..|a + b| - 1] == a + b';
      PrintedAppend(a, b');
    } else {
      assert a + b == a;
    }
  }

  /** Each Trace call contributes exactly one newline, at its end: the output
      of n calls whose arguments hold no newline has exactly n newlines, and
      ends with one when n > 0. */
  lemma {:induction false} PrintedNewlines(calls: seq<seq<string>>)
    requires forall i, j :: 0 <= i < |calls| && 0 <= j < |calls[i]| ==> '\n' !in calls[i][j]
    ensures multiset(Printed(calls))['\n'] == |calls|
    ensures calls != [] ==> Printed(calls)[|Printed(calls)| - 1] == '\n'
    decreases |calls|
  {
    if calls != [] {
      var last := calls[|calls| - 1];
      PrintedNewlines(calls[..|calls| - 1]);
      ConcatHasNoNewline(last);
      assert multiset(Printed(calls)) == multiset(Printed(calls[..|calls| - 1])) + multiset(Concat(last)) + multiset("\n");
    }
  }

  lemma {:induction false} ConcatHasNoNewline(args: seq<string>)
    requires forall j :: 0 <= j < |args| ==> '\n' !in args[j]
    ensures '\n' !in Concat(args)
    decreases |args|
  {
    if args != [] {
      ConcatHasNoNewline(args[..|args| - 1]);
    }
  }

  /** Tracer, with both implementations of the interface: `out` is the writer
      of the printing tracer built by New, and null for the silent one built
      by Off (nilTracer). */
  class Tracer {
    const out: Writer?

    /** New(w): a tracer that prints to `w`. */
    constructor New(w: Writer)
      ensures out == w
    {
      out := w;
    }

    /** Off(): the tracer that prints nothing. */
    constructor Off()
      ensures out == null
    {
      out := null;
    }

    /** Trace(args...): the printing tracer appends the arguments and one
        newline to its writer (fmt.Fprint, then fmt.Fprintln); the silent one
        changes nothing. */
    method Trace(args: seq<string>)
      modifies out
      ensures out != null ==> out.text == old(out.text) + Line(args)
    {
      if out != null {
        out.WriteString(Concat(args));
        out.WriteString("\n");
      }
    }
  }

  /** Making a sequence of Trace calls, one after the other. */
  method TraceAll(t: Tracer, calls: seq<seq<string>>)
    modifies t.out
    ensures t.out != null ==> t.out.text == old(t.out.text) + Printed(calls)
  {
    var i := 0;
    while i < |calls|
      invariant 0 <= i <= |calls|
      invariant t.out != null ==> t.out.text == old(t.out.text) + Printed(calls[..i])
    {
      t.Trace(calls[i]);
      assert calls[..i + 1][..i] == calls[..i];
      i := i + 1;
    }
    assert calls[..|calls|] == calls;
  }

  /** The first test of the package: a tracer made by New on an empty buffer,
      traced once with "Hello trace package.", leaves exactly that line. */
  method HelloTrace() returns (buffered: string)
    ensures buffered == "Hello trace package.\n"
  {
    var buf := new Writer();
    var tracer := new Tracer.New(buf);
    tracer.Trace(["Hello trace package."]);
    ConcatSmall("Hello trace package.", "");
    buffered := buf.text;
  }

  /** The second test, for every sequence of calls: a buffer next to an Off
      tracer stays empty however the tracer is used. */
  method SilentTrace(calls: seq<seq<string>>) returns (buffered: string)
    ensures buffered == ""
  {
    var buf := new Writer();
    var silent := new Tracer.Off();
    TraceAll(silent, calls);
    buffered := buf.text;
  }
}
