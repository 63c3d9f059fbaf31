/** Path text as filepath.Join and filepath.Dir produce it, without the
    lexical cleaning ("..", ".", repeated separators) those functions apply. */
module Paths {

  /** Join of a directory and a name; an empty directory contributes nothing. */
  function Join(dir: string, name: string): (p: string)
    ensures dir != "" ==> |p| > |dir| && p[..|dir|] == dir && p[|dir|] == '/'
  {
    if dir == "" then name else dir + "/" + name
  }

  /** Everything before the last separator; "." when there is none and "/"
      when the only separator is the leading one. */
  function Dir(path: string): string
    decreases |path|
  {
    if path == "" then "."
    else if path[|path| - 1] == '/' then (if |path| == 1 then "/" else path[..|path| - 1])
    else Dir(path[..|path| - 1])
  }

  /** The parent of a joined name that has no separator of its own is the
      directory it was joined to. */
  lemma {:induction false} DirOfJoin(dir: string, name: string)
    requires dir != ""
    requires forall i :: 0 <= i < |name| ==> name[i] != '/'
    ensures Dir(Join(dir, name)) == dir
    decreases |name|
  {
    if name != [] {
      var shorter := name[..|name| - 1];
      assert Join(dir, name)[..|Join(dir, name)| - 1] == Join(dir, shorter);
      DirOfJoin(dir, shorter);
    } else {
      assert Join(dir, name)[..|Join(dir, name)| - 1] == dir;
    }
  }
}
