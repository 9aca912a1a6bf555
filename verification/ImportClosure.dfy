/** The import audit: a worklist search whose edges send an imported name to the longest known module
    that is a dotted prefix of it.  The search returns exactly the reachable modules. */
module ImportClosure {

  type Name = string

  /** The modules of the code base, each with the names it imports. */
  type Files = map<Name, set<Name>>

  predicate IsTmis(imported: Name) {
    |imported| >= 5 && imported[..5] == "tmis."
  }

  lemma {:induction false} IsTmisMeans(imported: Name)
    ensures IsTmis(imported) <==> "tmis." <= imported
  {
  }

  /** The text before the last dot. */
  function Parent(name: Name): (p: Name)
    requires '.' in name
    ensures |p| < |name| && p == name[..|p|] && name[|p|] == '.'
    ensures forall i :: |p| < i < |name| ==> name[i] != '.'
  {
    var n := |name| - 1;
    if name[n] == '.' then name[..n]
    else
      assert name == name[..n] + [name[n]];
      Parent(name[..n])
  }

  // ---------- what the search should find ----------

  ghost predicate DottedPrefix(p: Name, name: Name) {
    p == name || (|p| < |name| && p == name[..|p|] && name[|p|] == '.')
  }

  ghost predicate LongestKnown(m: Name, imported: Name, modules: set<Name>) {
    && m in modules && DottedPrefix(m, imported)
    && forall d :: d in modules && DottedPrefix(d, imported) ==> |d| <= |m|
  }

  ghost predicate Edge(files: Files, a: Name, b: Name) {
    a in files && exists imported :: imported in files[a] && IsTmis(imported) && LongestKnown(b, imported, files.Keys)
  }

  ghost predicate Path(files: Files, p: seq<Name>) {
    p != [] && forall i :: 0 <= i < |p| - 1 ==> Edge(files, p[i], p[i + 1])
  }

  ghost predicate Reachable(files: Files, a: Name, b: Name) {
    exists p :: Path(files, p) && p[0] == a && p[|p| - 1] == b
  }

  // ---------- resolving one import ----------

  /** The inner loop: cut the name at its last dot until it is known; "" if no part of it is. */
  method Resolve(imported: Name, modules: set<Name>) returns (candidate: Name)
    requires IsTmis(imported)
    ensures candidate != "" ==> LongestKnown(candidate, imported, modules)
    ensures candidate == "" ==> forall d :: d in modules ==> !DottedPrefix(d, imported)
  {
    candidate := imported;
    while candidate != "" && candidate !in modules
      invariant candidate != "" ==> DottedPrefix(candidate, imported)
      invariant candidate != "" ==> forall d :: d in modules && DottedPrefix(d, imported) ==> |d| <= |candidate|
      invariant candidate == "" ==> forall d :: d in modules ==> !DottedPrefix(d, imported)
      decreases |candidate|
    {
      if '.' !in candidate {
        NoShorterPrefix(candidate, imported);
        candidate := "";
        break;
      }
      NextPrefix(candidate, imported);
      candidate := Parent(candidate);
    }
  }

  /** A dotted prefix without a dot is the shortest one there is. */
  lemma {:induction false} NoShorterPrefix(c: Name, imported: Name)
    requires DottedPrefix(c, imported) && '.' !in c
    ensures forall d :: DottedPrefix(d, imported) && |d| <= |c| ==> d == c
  {
    forall d | DottedPrefix(d, imported) && |d| <= |c| ensures d == c {
      if |d| < |c| { assert c[|d|] == imported[|d|]; }
    }
  }

  /** Cutting at the last dot gives the next shorter dotted prefix; it is never empty. */
  lemma {:induction false} NextPrefix(c: Name, imported: Name)
    requires IsTmis(imported) && DottedPrefix(c, imported) && '.' in c
    ensures Parent(c) != "" && DottedPrefix(Parent(c), imported)
    ensures forall d :: DottedPrefix(d, imported) && |d| < |c| ==> |d| <= |Parent(c)|
  {
    var p := Parent(c);
    assert p == imported[..|p|] && imported[|p|] == '.' by {
      assert c == imported[..|c|];
    }
    assert imported[..5][0] == 't';
    forall d | DottedPrefix(d, imported) && |d| < |c| ensures |d| <= |p| {
      assert c[|d|] == imported[|d|];
    }
  }

  lemma {:induction false} LongestIsUnique(a: Name, b: Name, imported: Name, modules: set<Name>)
    requires LongestKnown(a, imported, modules) && LongestKnown(b, imported, modules)
    ensures a == b
  {
    assert a == imported[..|a|] && b == imported[..|b|];
  }

  // ---------- the search ----------

  lemma {:induction false} ReachableStep(files: Files, entry: Name, a: Name, b: Name)
    requires Reachable(files, entry, a) && Edge(files, a, b)
    ensures Reachable(files, entry, b)
  {
    var p :| Path(files, p) && p[0] == entry && p[|p| - 1] == a;
    assert Path(files, p + [b]);
  }

  lemma {:induction false} ClosedContainsPath(files: Files, visited: set<Name>, p: seq<Name>)
    requires Path(files, p) && p[0] in visited
    requires forall a, b :: a in visited && Edge(files, a, b) ==> b in visited
    ensures p[|p| - 1] in visited
  {
    if |p| > 1 {
      var q := p[1..];
      assert Edge(files, p[0], p[1]);
      forall i | 0 <= i < |q| - 1 ensures Edge(files, q[i], q[i + 1]) {
        assert Edge(files, p[i + 1], p[i + 2]);
      }
      ClosedContainsPath(files, visited, q);
    }
  }

  /** Every import of `a` in `imports` has been followed: its target is visited or waiting. */
  ghost predicate Followed(files: Files, imports: set<Name>, visited: set<Name>, stack: seq<Name>) {
    forall i, b :: i in imports && IsTmis(i) && LongestKnown(b, i, files.Keys) ==> b in visited || b in stack
  }

  /** Everything found so far is a module of the code base or the entry point, and reachable. */
  ghost predicate Sound(files: Files, entry: Name, visited: set<Name>, stack: seq<Name>) {
    forall m :: m in visited || m in stack ==> (m in files || m == entry) && Reachable(files, entry, m)
  }

  /** The loop over the imports of one module, in any order: each target is pushed unless it was visited. */
  method PushImports(files: Files, entry: Name, mod: Name, visited: set<Name>, stack: seq<Name>)
    returns (pushed: seq<Name>)
    requires mod in files && mod in visited && Sound(files, entry, visited, stack)
    ensures stack <= pushed && Sound(files, entry, visited, pushed) && Followed(files, files[mod], visited, pushed)
  {
    pushed := stack;
    var todo := files[mod];
    while todo != {}
      invariant todo <= files[mod] && stack <= pushed
      invariant Sound(files, entry, visited, pushed)
      invariant Followed(files, files[mod] - todo, visited, pushed)
      decreases todo
    {
      var imported :| imported in todo;
      todo := todo - {imported};
      if !IsTmis(imported) {
        continue;
      }
      var candidate := Resolve(imported, files.Keys);
      if candidate != "" && candidate !in visited {
        assert Edge(files, mod, candidate);
        ReachableStep(files, entry, mod, candidate);
        pushed := pushed + [candidate];
      }
      forall b | LongestKnown(b, imported, files.Keys) ensures b in visited || b in pushed {
        LongestIsUnique(b, candidate, imported, files.Keys);
      }
    }
  }

  /** What was followed stays followed while things only move from the stack to the visited set. */
  lemma {:induction false} StillFollowed(files: Files, imports: set<Name>, visited: set<Name>, stack: seq<Name>,
                                         visited': set<Name>, stack': seq<Name>)
    requires Followed(files, imports, visited, stack)
    requires forall m :: m in visited || m in stack ==> m in visited' || m in stack'
    ensures Followed(files, imports, visited', stack')
  {
  }

  ghost predicate AllFollowed(files: Files, visited: set<Name>, stack: seq<Name>) {
    forall a :: a in visited && a in files ==> Followed(files, files[a], visited, stack)
  }

  method TransitiveClosure(files: Files, entry: Name) returns (visited: set<Name>)
    ensures forall m :: m in visited <==> Reachable(files, entry, m)
  {
    visited := {};
    var stack := [entry];
    assert Path(files, [entry]);
    while stack != []
      invariant entry in visited || entry in stack
      invariant Sound(files, entry, visited, stack)
      invariant AllFollowed(files, visited, stack)
      decreases files.Keys + {entry} - visited, |stack|
    {
      var mod := stack[|stack| - 1];
      ghost var stack0, visited0 := stack, visited;
      stack := stack[..|stack| - 1];
      assert stack0 == stack + [mod];
      if mod in visited {
        forall a | a in visited && a in files ensures Followed(files, files[a], visited, stack) {
          StillFollowed(files, files[a], visited0, stack0, visited, stack);
        }
        continue;
      }
      visited := visited + {mod};
      if mod in files {
        stack := PushImports(files, entry, mod, visited, stack);
      }
      forall a | a in visited && a in files ensures Followed(files, files[a], visited, stack) {
        if a != mod { StillFollowed(files, files[a], visited0, stack0, visited, stack); }
      }
    }
    forall a, b | a in visited && Edge(files, a, b) ensures b in visited {
      assert Followed(files, files[a], visited, stack);
    }
    forall m | Reachable(files, entry, m) ensures m in visited {
      var p :| Path(files, p) && p[0] == entry && p[|p| - 1] == m;
      ClosedContainsPath(files, visited, p);
    }
  }
}
