/**
 * The instantiation failure chain: `InstantiationException` (in PHP's
 * `Exception` hierarchy) and `InstantiationError` (in its `Error` hierarchy)
 * wrap a cause and record the alias being built. Their constructors walk the
 * cause chain through every node of their own class, append " -> alias" for
 * each, and finish with the first foreign cause's message; file and line are
 * taken from that cause too.
 */
module Failure {
  import opened Types

  /** The two throwable hierarchies of PHP. */
  datatype Branch = ExceptionBranch | ErrorBranch

  /**
   * A throwable as far as the chain walk sees it: an instantiation node of
   * either class, or any other throwable (the walk stops there).
   */
  datatype Throwable =
    | Instantiation(branch: Branch, alias: string, args: Args, message: string,
                    file: string, line: int, previous: Throwable)
    | Foreign(branch: Branch, message: string, file: string, line: int)
  {
    /** `$this instanceof static` for the class of branch `b`. */
    predicate IsNode(b: Branch)
    {
      Instantiation? && branch == b
    }
  }

  /** The fixed start of each class's message. */
  function Prefix(b: Branch): string
  {
    match b
    case ExceptionBranch => "An exception occurred while instantiating "
    case ErrorBranch => "An error occurred while instantiating "
  }

  /** The aliases of the leading nodes of branch `b`, outermost first. */
  function AliasPath(b: Branch, e: Throwable): seq<string>
  {
    if e.IsNode(b) then [e.alias] + AliasPath(b, e.previous) else []
  }

  /** The first cause that is not a node of branch `b`. */
  function Terminal(b: Branch, e: Throwable): (t: Throwable)
    ensures !t.IsNode(b)
  {
    if e.IsNode(b) then Terminal(b, e.previous) else e
  }

  /** " -> a1 -> a2 ..." */
  function Arrows(path: seq<string>): string
  {
    if path == [] then "" else " -> " + path[0] + Arrows(path[1..])
  }

  /** The message a node for `alias` wrapping `previous` carries. */
  function ChainMessage(b: Branch, alias: string, previous: Throwable): string
  {
    Prefix(b) + alias + Arrows(AliasPath(b, previous)) + ": " + Terminal(b, previous).message
  }

  /** The node `k` steps down the `getPrevious()` chain, staying in branch `b`. */
  function Down(b: Branch, e: Throwable, k: nat): Throwable
  {
    if k == 0 || !e.IsNode(b) then e else Down(b, e.previous, k - 1)
  }

  /**
   * Walking `getPrevious()` from a chain visits exactly its alias path, one
   * node per step, and after the last alias reaches the terminal cause.
   */
  lemma {:induction false} WalkVisitsPath(b: Branch, e: Throwable, k: nat)
    requires k <= |AliasPath(b, e)|
    ensures k < |AliasPath(b, e)| ==> Down(b, e, k).IsNode(b) && Down(b, e, k).alias == AliasPath(b, e)[k]
    ensures k == |AliasPath(b, e)| ==> Down(b, e, k) == Terminal(b, e)
  {
    if e.IsNode(b) && k > 0 {
      WalkVisitsPath(b, e.previous, k - 1);
    }
  }

  /**
   * Wrapping a node in another of the same class extends the path by one
   * alias: the outer message is the inner one with " -> " and the outer
   * alias spliced in after the prefix; the terminal cause is shared.
   */
  lemma MessageExtends(b: Branch, alias: string, inner: Throwable)
    requires inner.IsNode(b)
    requires inner.message == ChainMessage(b, inner.alias, inner.previous)
    ensures Terminal(b, inner) == Terminal(b, inner.previous)
    ensures AliasPath(b, inner) == [inner.alias] + AliasPath(b, inner.previous)
    ensures |inner.message| >= |Prefix(b)|
    ensures ChainMessage(b, alias, inner) == Prefix(b) + alias + " -> " + inner.message[|Prefix(b)|..]
  {
    var pre, path, last := Prefix(b), AliasPath(b, inner.previous), Terminal(b, inner.previous).message;
    var tail := Arrows(path) + ": " + last;
    Splice(pre, inner.alias, tail, inner.message);
    assert Arrows([inner.alias] + path) == " -> " + inner.alias + Arrows(path) by {
      assert ([inner.alias] + path)[1..] == path;
    }
    Regroup(pre + alias, " -> " + inner.alias, Arrows(path), ": ", last);
  }

  /**
   * Two levels: wrapping a node for "Y" (itself wrapping a foreign cause) in
   * a node for "X" gives "<prefix>X -> Y: <cause message>", and the outer
   * node reports the foreign cause's file and line.
   */
  lemma TwoLevelChain(b: Branch, args: Args, cause: Throwable)
    requires !cause.IsNode(b)
    ensures var inner := Instantiation(b, "Y", args, ChainMessage(b, "Y", cause), cause.file, cause.line, cause);
            && ChainMessage(b, "X", inner) == Prefix(b) + "X -> Y: " + cause.message
            && Terminal(b, inner) == cause
  {
    var inner := Instantiation(b, "Y", args, ChainMessage(b, "Y", cause), cause.file, cause.line, cause);
    var pre, m := Prefix(b), cause.message;
    MessageExtends(b, "X", inner);
    assert ChainMessage(b, "Y", cause) == pre + "Y" + ": " + m;
    Splice(pre, "Y", ": " + m, inner.message);
    assert "X" + " -> " + "Y" + ": " == "X -> Y: ";
    calc {
      ChainMessage(b, "X", inner);
      pre + "X" + " -> " + ("Y" + (": " + m));
      pre + ("X" + " -> " + "Y" + ": ") + m;
    }
  }

  /** The part of `m` after the prefix `pre`. */
  lemma Splice(pre: string, a: string, tail: string, m: string)
    requires m == pre + a + tail
    ensures |m| >= |pre| && m[|pre|..] == a + tail
  {
    assert m == pre + (a + tail);
  }

  lemma Regroup(s1: string, s2: string, s3: string, s4: string, s5: string)
    ensures s1 + (s2 + s3) + s4 + s5 == s1 + s2 + (s3 + s4 + s5)
  {
  }

  /**
   * The walk the constructors perform: from `previous`, follow nodes of
   * branch `b`, appending " -> alias" to `message`; stop at the first foreign
   * cause and return the message and that cause.
   */
  method WalkChain(b: Branch, head: string, previous: Throwable) returns (message: string, cause: Throwable)
    ensures message == head + Arrows(AliasPath(b, previous))
    ensures cause == Terminal(b, previous)
  {
    message := head;
    var e := previous;
    while e.IsNode(b)
      invariant message + Arrows(AliasPath(b, e)) == head + Arrows(AliasPath(b, previous))
      invariant Terminal(b, e) == Terminal(b, previous)
      decreases e
    {
      message := message + " -> " + e.alias;
      e := e.previous;
    }
    cause := e;
  }

  class InstantiationException {
    const alias: string
    const args: Args
    const message: string
    const file: string
    const line: int
    const previous: Throwable

    constructor (alias: string, args: Args, previous: Throwable)
      requires previous.branch == ExceptionBranch
      ensures GetAlias() == alias && GetArgs() == args && GetPrevious() == previous
      ensures message == ChainMessage(ExceptionBranch, alias, previous)
      ensures file == Terminal(ExceptionBranch, previous).file
      ensures line == Terminal(ExceptionBranch, previous).line
    {
      var text, cause := WalkChain(ExceptionBranch, Prefix(ExceptionBranch) + alias, previous);
      this.alias := alias;
      this.args := args;
      this.previous := previous;
      message := text + ": " + cause.message;
      file := cause.file;
      line := cause.line;
    }

    function GetAlias(): string { alias }

    function GetArgs(): Args { args }

    function GetPrevious(): Throwable { previous }

    /** This exception as a cause of an enclosing one. */
    function AsThrowable(): Throwable
    {
      Instantiation(ExceptionBranch, alias, args, message, file, line, previous)
    }
  }

  class InstantiationError {
    const alias: string
    const args: Args
    const message: string
    const file: string
    const line: int
    const previous: Throwable

    constructor (alias: string, args: Args, previous: Throwable)
      requires previous.branch == ErrorBranch
      ensures GetAlias() == alias && GetArgs() == args && GetPrevious() == previous
      ensures message == ChainMessage(ErrorBranch, alias, previous)
      ensures file == Terminal(ErrorBranch, previous).file
      ensures line == Terminal(ErrorBranch, previous).line
    {
      var text, cause := WalkChain(ErrorBranch, Prefix(ErrorBranch) + alias, previous);
      this.alias := alias;
      this.args := args;
      this.previous := previous;
      message := text + ": " + cause.message;
      file := cause.file;
      line := cause.line;
    }

    function GetAlias(): string { alias }

    function GetArgs(): Args { args }

    function GetPrevious(): Throwable { previous }

    /** This error as a cause of an enclosing one. */
    function AsThrowable(): Throwable
    {
      Instantiation(ErrorBranch, alias, args, message, file, line, previous)
    }
  }
}
