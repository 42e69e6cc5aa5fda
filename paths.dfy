/** The two-argument POSIX path join that names every discovered object. */
module Paths {

  const SEP: char := '/'

  predicate IsAbsolute(name: string) {
    |name| > 0 && name[0] == SEP
  }

  /** `os.path.join(parent, name)` on POSIX: an absolute `name` replaces the
      parent; an empty parent, or one that already ends in the separator, is
      extended without a second separator; otherwise one separator goes between. */
  function Join(parent: string, name: string): string {
    if IsAbsolute(name) then name
    else if parent == [] || parent[|parent| - 1] == SEP then parent + name
    else parent + [SEP] + name
  }

  /** A path component that joins as plain concatenation: non-empty, with no
      leading and no trailing separator. */
  predicate IsPlain(s: string) {
    |s| > 0 && s[0] != SEP && s[|s| - 1] != SEP
  }

  /** For a parent path that is non-empty and does not end in the separator,
      and a name that is not absolute, the join is `parent + "/" + name`;
      the result then again ends like `name`. */
  lemma JoinIsConcat(parent: string, name: string)
    requires parent != [] && parent[|parent| - 1] != SEP
    requires !IsAbsolute(name)
    ensures Join(parent, name) == parent + "/" + name
    ensures |Join(parent, name)| == |parent| + 1 + |name|
  {
  }

  /** Joining plain components keeps the path plain, so every level of a walk
      over plain names extends its parent by exactly "/" and the name. */
  lemma JoinPlain(parent: string, name: string)
    requires IsPlain(parent) && IsPlain(name)
    ensures Join(parent, name) == parent + "/" + name
    ensures IsPlain(Join(parent, name))
  {
    var r := parent + "/" + name;
    assert r[|r| - 1] == name[|name| - 1];
  }

  /** The quirk of `os.path.join`: an absolute name discards the parent path. */
  lemma JoinAbsoluteDropsParent(parent: string, name: string)
    requires IsAbsolute(name)
    ensures Join(parent, name) == name
  {
  }
}
