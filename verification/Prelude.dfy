/** Small shared vocabulary: optional values and the "value or null" maps of hashes. */
module Prelude {

  datatype Option<+T> = None | Some(value: T)

  type Path = string
  type OpId = string

  /** A hash record: path to hash, where a hash may itself be null. */
  type HashMap = map<string, Option<string>>

  /** `record[path] ?? null` */
  function Look(m: HashMap, p: string): Option<string> {
    if p in m then m[p] else None
  }

  /** The hash `currentHash` observes: null for an absent file. */
  function Observed(files: map<string, string>, p: string): Option<string> {
    if p in files then Some(files[p]) else None
  }

  /** Replace or remove one file. */
  function SetFile(files: map<string, string>, p: string, h: Option<string>): map<string, string> {
    match h
    case None => files - {p}
    case Some(x) => files[p := x]
  }

  function Elements<T>(s: seq<T>): set<T> {
    set x | x in s
  }

  lemma ElementsSnoc<T>(s: seq<T>, x: T)
    ensures Elements(s + [x]) == Elements(s) + {x}
  {
  }

  predicate Distinct<T(==)>(s: seq<T>) {
    forall i, j :: 0 <= i < j < |s| ==> s[i] != s[j]
  }

  /** A sequence has as many elements as positions exactly when it repeats none. */
  lemma {:induction false} UniqueCount<T>(s: seq<T>)
    ensures |Elements(s)| <= |s|
    ensures |Elements(s)| == |s| <==> Distinct(s)
  {
    if s != [] {
      var last := s[|s| - 1];
      var rest := s[..|s| - 1];
      UniqueCount(rest);
      assert s == rest + [last];
      assert Elements(s) == Elements(rest) + {last};
      assert Distinct(s) <==> Distinct(rest) && last !in rest;
    }
  }

  lemma {:induction false} SubsetSize<T>(s: set<T>, t: set<T>)
    requires s <= t
    ensures |s| <= |t|
  {
    if s != {} {
      var x :| x in s;
      SubsetSize(s - {x}, t - {x});
    }
  }
}
