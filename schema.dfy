/** The parts of zod's object validation the two forms use. */
module Schema {

  /** One validation failure: the field and the message shown under it. */
  datatype Issue = Issue(path: string, message: string)

  /** `safeParse`'s outcome: the parsed values, or every issue found. */
  datatype Parsed<T> = Parsed(data: T) | Rejected(issues: seq<Issue>)

  /** A check on one field: no issue when it holds, one issue with `message` when it fails. */
  function Check(path: string, ok: bool, message: string): (issues: seq<Issue>)
    ensures ok <==> issues == []
    ensures !ok ==> issues == [Issue(path, message)]
  {
    if ok then [] else [Issue(path, message)]
  }

  /** `z.string().min(n, message)`. */
  function MinLength(path: string, value: string, n: nat, message: string): (issues: seq<Issue>)
    ensures |value| >= n <==> issues == []
    ensures |value| < n ==> issues == [Issue(path, message)]
  {
    Check(path, |value| >= n, message)
  }

  /** The fields that have an issue. */
  function Paths(issues: seq<Issue>): (paths: seq<string>)
    ensures |paths| == |issues|
    ensures forall i :: 0 <= i < |issues| ==> paths[i] == issues[i].path
  {
    if issues == [] then [] else [issues[0].path] + Paths(issues[1..])
  }

  /** The fields with an issue in a concatenation of issue lists. */
  lemma PathsAppend(a: seq<Issue>, b: seq<Issue>)
    ensures Paths(a + b) == Paths(a) + Paths(b)
  {
    var p := Paths(a + b);
    assert forall i :: 0 <= i < |a + b| ==> p[i] == (Paths(a) + Paths(b))[i];
  }

  /** The issues shown under the field `path`, in order. */
  function OnPath(issues: seq<Issue>, path: string): (r: seq<Issue>)
    ensures forall i :: i in r <==> i in issues && i.path == path
    ensures |r| <= |issues|
  {
    if issues == [] then []
    else (if issues[0].path == path then [issues[0]] else []) + OnPath(issues[1..], path)
  }

  /** Selecting a field's issues distributes over concatenation. */
  lemma {:induction false} OnPathAppend(a: seq<Issue>, b: seq<Issue>, path: string)
    ensures OnPath(a + b, path) == OnPath(a, path) + OnPath(b, path)
  {
    if a != [] {
      assert (a + b)[0] == a[0] && (a + b)[1..] == a[1..] + b;
      OnPathAppend(a[1..], b, path);
    } else {
      assert a + b == b;
    }
  }

  /** Issues that all sit under `path` are all selected by it; under another field, none are. */
  lemma {:induction false} OnPathUniform(issues: seq<Issue>, p: string, path: string)
    requires forall i :: i in issues ==> i.path == p
    ensures OnPath(issues, path) == if p == path then issues else []
  {
    if issues != [] {
      assert issues[0] in issues;
      assert forall i :: i in issues[1..] ==> i in issues;
      OnPathUniform(issues[1..], p, path);
    }
  }

  /**
   * What one field shows after an edit once a submit has been attempted (react-hook-form's
   * `reValidateMode: "onChange"`): a changed field shows the issues `checked` from its check, run again, an unchanged
   * one what it showed before.
   */
  function Refresh(shown: seq<Issue>, path: string, changed: bool, checked: seq<Issue>): seq<Issue> {
    if changed then checked else OnPath(shown, path)
  }

  /** A refreshed field's issues all sit under that field. */
  lemma RefreshOnPath(shown: seq<Issue>, p: string, changed: bool, checked: seq<Issue>, path: string)
    requires forall i :: i in checked ==> i.path == p
    ensures OnPath(Refresh(shown, p, changed, checked), path) == if p == path then Refresh(shown, p, changed, checked) else []
  {
    OnPathUniform(Refresh(shown, p, changed, checked), p, path);
  }

  /** A field's issues in three consecutive lists, each under one field. */
  lemma OnPathOfThree(a: seq<Issue>, pa: string, b: seq<Issue>, pb: string, c: seq<Issue>, pc: string, path: string)
    requires forall i :: i in a ==> i.path == pa
    requires forall i :: i in b ==> i.path == pb
    requires forall i :: i in c ==> i.path == pc
    ensures OnPath(a + b + c, path) ==
      (if pa == path then a else []) + (if pb == path then b else []) + (if pc == path then c else [])
  {
    OnPathAppend(a + b, c, path);
    OnPathAppend(a, b, path);
    OnPathUniform(a, pa, path);
    OnPathUniform(b, pb, path);
    OnPathUniform(c, pc, path);
  }
}
