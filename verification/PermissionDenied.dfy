/** The search for a permission error among an exception's causes, contexts and
  * nested exceptions.  Exceptions are objects, and their links may be cyclic.
  */
module PermissionDenied {
  import opened Wrappers

  const EPERM := 1
  const EACCES := 13

  datatype Kind = PermissionError | OsError(errno: Option<int>) | OtherError

  class Failure {
    var kind: Kind
    var cause: Failure?
    var context: Failure?
    var suppressContext: bool
    var nested: seq<Failure?>

    predicate IsDenial()
      reads this
    {
      kind.PermissionError? || (kind.OsError? && (kind.errno == Some(EPERM) || kind.errno == Some(EACCES)))
    }

    /** The exceptions this one points to and the search follows. */
    ghost function Links(): set<Failure?>
      reads this
    {
      (set n | n in nested) + {cause} + (if suppressContext then {} else {context})
    }
  }

  ghost predicate Closed(all: set<Failure>)
    reads all
  {
    forall e, n | e in all && n in e.Links() && n != null :: n in all
  }

  /** The exceptions at most `n` links away from `root`. */
  ghost function Within(all: set<Failure>, root: Failure, n: nat): set<Failure>
    reads all
  {
    if n == 0 then {root}
    else
      var near := Within(all, root, n - 1);
      near + (set e, f | e in all && f in all && e in near && f in e.Links() :: f)
  }

  ghost predicate Reachable(all: set<Failure>, root: Failure, e: Failure)
    reads all
  {
    exists n: nat :: e in Within(all, root, n)
  }

  lemma ReachableLink(all: set<Failure>, root: Failure, e: Failure, f: Failure)
    requires e in all && f in all && Reachable(all, root, e) && f in e.Links()
    ensures Reachable(all, root, f)
  {
    var n: nat :| e in Within(all, root, n);
    assert f in Within(all, root, n + 1);
  }

  /** A set closed under links holds everything reachable from its members. */
  lemma {:induction false} ReachableInside(all: set<Failure>, root: Failure, s: set<Failure>, n: nat)
    requires root in s
    requires forall e, f | e in s && e in all && f in all && f in e.Links() :: f in s
    ensures Within(all, root, n) <= s
    decreases n
  {
    if n > 0 {
      ReachableInside(all, root, s, n - 1);
    }
  }

  /** What holds between rounds: everything found is reachable, nothing seen is a
    * denial, and what `seen` links to is seen or still to come. */
  ghost predicate Searching(all: set<Failure>, root: Failure, seen: set<Failure>, stack: seq<Failure?>)
    reads all
  {
    && seen <= all && (root in seen || root in stack)
    && (forall e: Failure | e in stack :: e in all && Reachable(all, root, e))
    && (forall e | e in seen :: !e.IsDenial())
    && (forall e, f: Failure | e in seen && f in e.Links() :: f in seen || f in stack)
  }

  lemma Pop(all: set<Failure>, root: Failure, seen: set<Failure>, rest: seq<Failure?>, current: Failure?)
    requires Searching(all, root, seen, rest + [current])
    ensures current == null || current in seen ==> Searching(all, root, seen, rest)
    ensures current != null ==> current in all && Reachable(all, root, current)
    ensures forall e: Failure | e in rest :: e in all && Reachable(all, root, e)
    ensures root in seen || root == current || root in rest
    ensures forall e, f: Failure | e in seen && f in e.Links() :: f in seen || f == current || f in rest
  {
    var stack := rest + [current];
    assert current in stack;
    forall e: Failure | e in rest ensures e in stack {
    }
    forall f: Failure ensures f in stack <==> f == current || f in rest {
    }
  }

  lemma Visit(all: set<Failure>, root: Failure, seen: set<Failure>, rest: seq<Failure?>, current: Failure,
              stack: seq<Failure?>)
    requires Closed(all) && Searching(all, root, seen, rest + [current]) && !current.IsDenial()
    requires forall f: Failure :: f in stack <==> f in rest || f in current.Links()
    ensures Searching(all, root, seen + {current}, stack)
  {
    Pop(all, root, seen, rest, current);
    forall e: Failure | e in stack ensures e in all && Reachable(all, root, e) {
      if e !in rest {
        ReachableLink(all, root, current, e);
      }
    }
  }

  lemma NothingLeft(all: set<Failure>, root: Failure, seen: set<Failure>)
    requires Searching(all, root, seen, [])
    ensures !exists e :: e in all && Reachable(all, root, e) && e.IsDenial()
  {
    forall e | e in all && Reachable(all, root, e) ensures !e.IsDenial() {
      var n: nat :| e in Within(all, root, n);
      ReachableInside(all, root, seen, n);
    }
  }

  /** `permission_denied`: true exactly when a permission error is reachable
    * through causes, unsuppressed contexts or nested exceptions.
    * `all` is any set of exceptions that holds `exc` and whatever it links to. */
  method PermissionDenied(exc: Failure?, ghost all: set<Failure>) returns (denied: bool)
    requires Closed(all) && (exc != null ==> exc in all)
    ensures denied <==> exc != null && exists e :: e in all && Reachable(all, exc, e) && e.IsDenial()
  {
    var seen: set<Failure> := {};
    var stack: seq<Failure?> := if exc != null then [exc] else [];
    if exc != null {
      assert exc in Within(all, exc, 0);
    }
    while stack != []
      invariant if exc == null then stack == [] else Searching(all, exc, seen, stack)
      decreases all - seen, |stack|
    {
      var current := stack[|stack| - 1];
      ghost var rest := stack[..|stack| - 1];
      assert stack == rest + [current];
      Pop(all, exc, seen, rest, current);
      stack := stack[..|stack| - 1];
      if current == null || current in seen {
        continue;
      }
      seen := seen + {current};
      if current.IsDenial() {
        return true;
      }
      if current.cause != null {
        stack := stack + [current.cause];
      }
      if current.context != null && !current.suppressContext {
        stack := stack + [current.context];
      }
      stack := stack + current.nested;
      Visit(all, exc, seen - {current}, rest, current, stack);
      assert seen - {current} + {current} == seen;
    }
    if exc != null {
      NothingLeft(all, exc, seen);
    }
    return false;
  }
}
