/**
 * The import specifiers a generated handler needs, and the duplicate-free,
 * first-seen-order list a destination file accumulates from them.
 */
module Imports {
  import opened GoStrings
  import opened Routes
  import opened Naming

  const PKG_SEP := "/"
  const PROJECT_OPEN_SOURCE_URL := "github.com/tal-tech/go-zero"

  /** The import of the HTTP helpers, a fixed location outside the project. */
  const HTTPX_IMPORT := "\"" + PROJECT_OPEN_SOURCE_URL + "/rest/httpx\""

  /** A package path wrapped in double quotes, as an import line expects it. */
  function Quote(s: string): string
  {
    "\"" + s + "\""
  }

  /** The packages joined into one import path with `/`. */
  function JoinPackages(pkgs: seq<string>): (r: string)
    ensures |pkgs| == 2 ==> r == pkgs[0] + "/" + pkgs[1]
  {
    Join(pkgs, PKG_SEP)
  }

  /**
   * The imports one route's handler needs, in order: its logic package and the
   * service context under the parent package, the shared types package (with
   * a trailing newline) only when the route has a request type, and the HTTP
   * helpers, which do not depend on the parent package.
   */
  function HandlerImports(group: Group, route: Route, parentPkg: string): (r: seq<string>)
    ensures |r| == if |route.requestType| > 0 then 4 else 3
    ensures r[0] == Quote(parentPkg + "/" + LogicFolderPath(group, route))
    ensures r[1] == Quote(parentPkg + "/" + CONTEXT_DIR)
    ensures |route.requestType| > 0 ==> r[2] == TypesImport(parentPkg)
    ensures r[|r| - 1] == HTTPX_IMPORT
  {
    var logic := Quote(JoinPackages([parentPkg, LogicFolderPath(group, route)]));
    var context := Quote(JoinPackages([parentPkg, CONTEXT_DIR]));
    var types := TypesImport(parentPkg);
    if |route.requestType| > 0 then [logic, context, types, HTTPX_IMPORT]
    else [logic, context, HTTPX_IMPORT]
  }

  /** The import of the shared types package, which alone carries a trailing newline. */
  function TypesImport(parentPkg: string): (r: string)
    ensures r == Quote(parentPkg + "/" + TYPES_DIR) + "\n"
    ensures r != [] && r[|r| - 1] == '\n'
  {
    Quote(JoinPackages([parentPkg, TYPES_DIR])) + "\n"
  }

  /**
   * The types package is imported exactly when the route has a request type,
   * and the HTTP helpers' import is the same whatever the parent package.
   */
  lemma TypesImportIffRequest(group: Group, route: Route, parentPkg: string, otherPkg: string)
    ensures TypesImport(parentPkg) in HandlerImports(group, route, parentPkg) <==> |route.requestType| > 0
    ensures HandlerImports(group, route, parentPkg)[|HandlerImports(group, route, parentPkg)| - 1] ==
      HandlerImports(group, route, otherPkg)[|HandlerImports(group, route, otherPkg)| - 1]
  {
    var r := HandlerImports(group, route, parentPkg);
    var t := TypesImport(parentPkg);
    if |route.requestType| == 0 {
      forall i | 0 <= i < |r| ensures r[i] != t {
        assert r[i][|r[i]| - 1] == '"';
      }
    }
  }

  /** No string occurs twice. */
  predicate NoDuplicates(s: seq<string>)
  {
    forall i, j :: 0 <= i < j < |s| ==> s[i] != s[j]
  }

  /**
   * `acc` extended by every item not already present, one item at a time in
   * order: the membership-guarded append the merge loop performs.
   */
  function AddNew(acc: seq<string>, items: seq<string>): seq<string>
    decreases |items|
  {
    if items == [] then acc
    else
      var prev := AddNew(acc, items[..|items| - 1]);
      var x := items[|items| - 1];
      if x in prev then prev else prev + [x]
  }

  /** The index of the first occurrence of `x` in `s`. */
  function FirstIndex(s: seq<string>, x: string): (k: nat)
    requires x in s
    ensures k < |s| && s[k] == x && x !in s[..k]
  {
    if s[0] == x then 0
    else
      var k := 1 + FirstIndex(s[1..], x);
      assert s[..k] == [s[0]] + s[1..][..k - 1];
      k
  }

  /** Any occurrence of `x` with no earlier one is the first. */
  lemma FirstIndexUnique(s: seq<string>, x: string, k: nat)
    requires k < |s| && s[k] == x && x !in s[..k]
    ensures FirstIndex(s, x) == k
  {
  }

  /**
   * `r` lists elements of `s`, each once, in the order of their first
   * occurrence in `s`.
   */
  ghost predicate FirstSeenOrder(r: seq<string>, s: seq<string>)
  {
    && (forall i :: 0 <= i < |r| ==> r[i] in s)
    && (forall i, j :: 0 <= i < j < |r| ==> FirstIndex(s, r[i]) < FirstIndex(s, r[j]))
  }

  /** A list kept in first-seen order has no duplicates. */
  lemma FirstSeenOrderHasNoDuplicates(r: seq<string>, s: seq<string>)
    requires FirstSeenOrder(r, s)
    ensures NoDuplicates(r)
  {
    forall i, j | 0 <= i < j < |r| ensures r[i] != r[j] {
      assert FirstIndex(s, r[i]) < FirstIndex(s, r[j]);
    }
  }

  /** The accumulated list holds exactly what was there and what was offered. */
  lemma {:induction false} AddNewMembers(acc: seq<string>, items: seq<string>)
    ensures forall x :: x in AddNew(acc, items) <==> x in acc || x in items
    decreases |items|
  {
    if items != [] {
      var front := items[..|items| - 1];
      AddNewMembers(acc, front);
      assert items == front + [items[|items| - 1]];
    }
  }

  /** Entries already present are never moved or dropped. */
  lemma {:induction false} AddNewExtends(acc: seq<string>, items: seq<string>)
    ensures |acc| <= |AddNew(acc, items)| && AddNew(acc, items)[..|acc|] == acc
    decreases |items|
  {
    if items != [] {
      AddNewExtends(acc, items[..|items| - 1]);
    }
  }

  /** Offering two lists in turn is offering their concatenation. */
  lemma {:induction false} AddNewAppend(acc: seq<string>, a: seq<string>, b: seq<string>)
    ensures AddNew(AddNew(acc, a), b) == AddNew(acc, a + b)
    decreases |b|
  {
    if b != [] {
      var front := b[..|b| - 1];
      AddNewAppend(acc, a, front);
      assert (a + b)[..|a + b| - 1] == a + front;
      assert (a + b)[|a + b| - 1] == b[|b| - 1];
    } else {
      assert a + b == a;
    }
  }

  /** Appending an element does not move the first occurrence of anything already present. */
  lemma FirstIndexExtend(s: seq<string>, x: string, y: string)
    requires y in s
    ensures FirstIndex(s + [x], y) == FirstIndex(s, y)
  {
    var k := FirstIndex(s, y);
    assert (s + [x])[..k] == s[..k];
    FirstIndexUnique(s + [x], y, k);
  }

  /** A new element appended to a list first occurs at the end. */
  lemma FirstIndexAppended(s: seq<string>, x: string)
    requires x !in s
    ensures FirstIndex(s + [x], x) == |s|
  {
    assert (s + [x])[..|s|] == s;
    FirstIndexUnique(s + [x], x, |s|);
  }

  /** A list without duplicates is in its own first-seen order. */
  lemma FirstSeenOrderOfItself(acc: seq<string>)
    requires NoDuplicates(acc)
    ensures FirstSeenOrder(acc, acc)
  {
    forall i | 0 <= i < |acc| ensures FirstIndex(acc, acc[i]) == i {
      assert acc[i] !in acc[..i];
      FirstIndexUnique(acc, acc[i], i);
    }
  }

  /** Appending to `s` keeps a list in first-seen order of `s` in first-seen order. */
  lemma FirstSeenOrderExtend(prev: seq<string>, s: seq<string>, x: string)
    requires FirstSeenOrder(prev, s)
    ensures FirstSeenOrder(prev, s + [x])
  {
    forall i | 0 <= i < |prev| ensures FirstIndex(s + [x], prev[i]) == FirstIndex(s, prev[i]) {
      FirstIndexExtend(s, x, prev[i]);
    }
  }

  /** An element new to `s` appended to both keeps the first-seen order. */
  lemma FirstSeenOrderAppendNew(prev: seq<string>, s: seq<string>, x: string)
    requires FirstSeenOrder(prev, s) && x !in s
    ensures FirstSeenOrder(prev + [x], s + [x])
  {
    FirstSeenOrderExtend(prev, s, x);
    FirstIndexAppended(s, x);
    var r := prev + [x];
    forall i, j | 0 <= i < j < |r| ensures FirstIndex(s + [x], r[i]) < FirstIndex(s + [x], r[j]) {
      assert r[i] == prev[i];
      if j < |prev| {
        assert r[j] == prev[j];
      } else {
        assert r[j] == x;
        assert FirstIndex(s, prev[i]) < |s|;
      }
    }
  }

  /**
   * Starting from a list in its own first-seen order, every entry appears
   * once and the entries are in the order of their first occurrence in the
   * starting list followed by the items.
   */
  lemma {:induction false} AddNewFirstSeen(acc: seq<string>, items: seq<string>)
    requires NoDuplicates(acc)
    ensures FirstSeenOrder(AddNew(acc, items), acc + items)
    ensures NoDuplicates(AddNew(acc, items))
    decreases |items|
  {
    if items == [] {
      assert acc + items == acc;
      FirstSeenOrderOfItself(acc);
    } else {
      var front := items[..|items| - 1];
      var x := items[|items| - 1];
      assert acc + items == (acc + front) + [x];
      AddNewFirstSeen(acc, front);
      AddNewMembers(acc, front);
      if x in AddNew(acc, front) {
        FirstSeenOrderExtend(AddNew(acc, front), acc + front, x);
      } else {
        FirstSeenOrderAppendNew(AddNew(acc, front), acc + front, x);
      }
      FirstSeenOrderHasNoDuplicates(AddNew(acc, items), acc + items);
    }
  }
}
