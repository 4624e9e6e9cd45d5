/** The part of zod's object schemas the dashboard's forms use, and the way
    the form library turns zod's issues into one message per field.

    A string field runs every check in declaration order and reports each
    one that fails; a missing required value or a value outside an enum ends
    that field with a single issue and marks the whole parse as aborted,
    which in turn keeps an object-level refinement from running. The email
    format check is a parameter `isEmail`. */
module Zod {
  import opened Wrappers

  /** One check of `z.string()`: `.min(n)` (and `.nonempty()`, which is
      `.min(1)`), `.max(n)`, `.email()`. */
  datatype Check = MinLen(n: nat, message: string) | MaxLen(n: nat, message: string) | EmailFormat(message: string)

  predicate Passes(c: Check, s: string, isEmail: string -> bool) {
    match c
    case MinLen(n, _) => |s| >= n
    case MaxLen(n, _) => |s| <= n
    case EmailFormat(_) => isEmail(s)
  }

  /** The messages of the failing checks, in declaration order. */
  function FailedMessages(checks: seq<Check>, s: string, isEmail: string -> bool): (r: seq<string>)
    ensures |r| <= |checks|
    ensures r == [] <==> forall i :: 0 <= i < |checks| ==> Passes(checks[i], s, isEmail)
    ensures checks != [] && !Passes(checks[0], s, isEmail) ==> r != [] && r[0] == checks[0].message
  {
    if checks == [] then []
    else if Passes(checks[0], s, isEmail) then FailedMessages(checks[1..], s, isEmail)
    else [checks[0].message] + FailedMessages(checks[1..], s, isEmail)
  }

  /** The first failing check's message: all earlier checks pass. */
  lemma {:induction false} FirstFailure(checks: seq<Check>, s: string, isEmail: string -> bool, k: nat)
    requires k < |checks| && !Passes(checks[k], s, isEmail)
    requires forall i :: 0 <= i < k ==> Passes(checks[i], s, isEmail)
    ensures FailedMessages(checks, s, isEmail) != []
    ensures FailedMessages(checks, s, isEmail)[0] == checks[k].message
  {
    if k > 0 {
      FirstFailure(checks[1..], s, isEmail, k - 1);
    }
  }

  /** What a field accepts. `.optional()` lets `undefined` through, a default
      replaces `undefined` before the inner schema sees it. */
  datatype Kind = Text(checks: seq<Check>) | OneOf(options: seq<string>)

  datatype Field = Field(path: string, kind: Kind, optional: bool, default: Option<string>)

  /** An object schema: its fields in declaration order. */
  type Schema = seq<Field>

  /** Form values by field name; a missing key is `undefined`. */
  type Values = map<string, string>

  function Lookup(values: Values, path: string): Option<string> {
    if path in values then Some(values[path]) else None
  }

  datatype Issue = Issue(path: string, message: string)

  /** A field's outcome: whether it aborted the parse, and its issues. */
  datatype Outcome = Outcome(aborted: bool, issues: seq<Issue>)

  /** The text zod gives an enum mismatch. */
  function EnumMessage(options: seq<string>, received: string): (m: string)
    ensures |m| > |received| + 2
    ensures m[|m| - |received| - 2..] == "'" + received + "'"
  {
    "Invalid enum value. Expected " + QuotedList(options) + ", received '" + received + "'"
  }

  function QuotedList(options: seq<string>): string {
    if options == [] then ""
    else if |options| == 1 then "'" + options[0] + "'"
    else "'" + options[0] + "' | " + QuotedList(options[1..])
  }

  /** The value the inner schema checks: the given one, else the default. */
  function Effective(f: Field, v: Option<string>): Option<string> {
    if v.Some? then v else f.default
  }

  function ParseField(f: Field, v: Option<string>, isEmail: string -> bool): (o: Outcome)
    ensures forall i :: 0 <= i < |o.issues| ==> o.issues[i].path == f.path
    ensures o.aborted ==> |o.issues| == 1
  {
    match Effective(f, v)
    case None =>
      if f.optional then Outcome(false, []) else Outcome(true, [Issue(f.path, "Required")])
    case Some(s) =>
      match f.kind
      case Text(checks) => Outcome(false, AsIssues(f.path, FailedMessages(checks, s, isEmail)))
      case OneOf(options) =>
        if s in options then Outcome(false, []) else Outcome(true, [Issue(f.path, EnumMessage(options, s))])
  }

  function AsIssues(path: string, messages: seq<string>): (r: seq<Issue>)
    ensures |r| == |messages|
    ensures forall i :: 0 <= i < |r| ==> r[i] == Issue(path, messages[i])
  {
    seq(|messages|, i requires 0 <= i < |messages| => Issue(path, messages[i]))
  }

  /** What a field accepts, stated without issues. */
  predicate Accepts(f: Field, v: Option<string>, isEmail: string -> bool) {
    match Effective(f, v)
    case None => f.optional
    case Some(s) =>
      match f.kind
      case Text(checks) => forall i :: 0 <= i < |checks| ==> Passes(checks[i], s, isEmail)
      case OneOf(options) => s in options
  }

  /** A field reports no issue exactly when it accepts its value, and only an
      absent required value or an enum mismatch aborts. */
  lemma ParseFieldSound(f: Field, v: Option<string>, isEmail: string -> bool)
    ensures ParseField(f, v, isEmail).issues == [] <==> Accepts(f, v, isEmail)
    ensures ParseField(f, v, isEmail).aborted ==> !Accepts(f, v, isEmail)
    ensures ParseField(f, v, isEmail).aborted <==>
      (Effective(f, v).None? && !f.optional) || (Effective(f, v).Some? && f.kind.OneOf? && Effective(f, v).value !in f.kind.options)
  {
  }

  /** A field with a single check accepts a present value exactly when the
      check passes. */
  lemma OneCheck(f: Field, v: Option<string>, isEmail: string -> bool)
    requires f.kind.Text? && |f.kind.checks| == 1 && !f.optional && f.default.None?
    ensures Accepts(f, v, isEmail) <==> v.Some? && Passes(f.kind.checks[0], v.value, isEmail)
  {
  }

  /** `z.object(shape)`: every field in order, issues concatenated. */
  function ParseObject(schema: Schema, values: Values, isEmail: string -> bool): (o: Outcome)
    ensures o.aborted ==> o.issues != []
  {
    if schema == [] then Outcome(false, [])
    else
      var head := ParseField(schema[0], Lookup(values, schema[0].path), isEmail);
      var rest := ParseObject(schema[1..], values, isEmail);
      Outcome(head.aborted || rest.aborted, head.issues + rest.issues)
  }

  predicate AcceptsAll(schema: Schema, values: Values, isEmail: string -> bool) {
    forall i :: 0 <= i < |schema| ==> Accepts(schema[i], Lookup(values, schema[i].path), isEmail)
  }

  /** An object parses cleanly exactly when every field accepts its value;
      every issue belongs to some field's path. */
  lemma {:induction false} ObjectIssuePaths(schema: Schema, values: Values, isEmail: string -> bool)
    ensures forall iss :: iss in ParseObject(schema, values, isEmail).issues ==>
      exists i :: 0 <= i < |schema| && schema[i].path == iss.path
  {
    if schema != [] {
      ObjectIssuePaths(schema[1..], values, isEmail);
      var head := ParseField(schema[0], Lookup(values, schema[0].path), isEmail);
      var rest := ParseObject(schema[1..], values, isEmail);
      forall iss | iss in head.issues + rest.issues
        ensures exists i :: 0 <= i < |schema| && schema[i].path == iss.path
      {
        if iss in head.issues {
          assert schema[0].path == iss.path;
        } else {
          var j :| 0 <= j < |schema[1..]| && schema[1..][j].path == iss.path;
          assert schema[j + 1].path == iss.path;
        }
      }
    }
  }

  lemma {:induction false} ObjectAborts(schema: Schema, values: Values, isEmail: string -> bool)
    ensures ParseObject(schema, values, isEmail).aborted <==>
      exists i :: 0 <= i < |schema| && ParseField(schema[i], Lookup(values, schema[i].path), isEmail).aborted
  {
    if schema != [] {
      ObjectAborts(schema[1..], values, isEmail);
      assert forall i :: 1 <= i < |schema| ==> schema[1..][i - 1] == schema[i];
    }
  }

  lemma {:induction false} ParseObjectSound(schema: Schema, values: Values, isEmail: string -> bool)
    ensures ParseObject(schema, values, isEmail).issues == [] <==> AcceptsAll(schema, values, isEmail)
    ensures ParseObject(schema, values, isEmail).aborted ==> !AcceptsAll(schema, values, isEmail)
    ensures forall iss :: iss in ParseObject(schema, values, isEmail).issues ==>
      exists i :: 0 <= i < |schema| && schema[i].path == iss.path
    ensures ParseObject(schema, values, isEmail).aborted <==>
      exists i :: 0 <= i < |schema| && ParseField(schema[i], Lookup(values, schema[i].path), isEmail).aborted
  {
    ObjectIssuePaths(schema, values, isEmail);
    ObjectAborts(schema, values, isEmail);
    if schema != [] {
      ParseObjectSound(schema[1..], values, isEmail);
      ParseFieldSound(schema[0], Lookup(values, schema[0].path), isEmail);
      if AcceptsAll(schema, values, isEmail) {
        assert AcceptsAll(schema[1..], values, isEmail) by {
          forall i | 0 <= i < |schema[1..]|
            ensures Accepts(schema[1..][i], Lookup(values, schema[1..][i].path), isEmail)
          {
            assert schema[1..][i] == schema[i + 1];
          }
        }
      }
      if !AcceptsAll(schema, values, isEmail) && Accepts(schema[0], Lookup(values, schema[0].path), isEmail) {
        var i :| 0 <= i < |schema| && !Accepts(schema[i], Lookup(values, schema[i].path), isEmail);
        assert schema[1..][i - 1] == schema[i];
      }
      if AcceptsAll(schema[1..], values, isEmail) && Accepts(schema[0], Lookup(values, schema[0].path), isEmail) {
        forall i | 0 <= i < |schema| ensures Accepts(schema[i], Lookup(values, schema[i].path), isEmail) {
          if i > 0 {
            assert schema[1..][i - 1] == schema[i];
          }
        }
      }
    }
  }

  /** `schema.refine(test, { message, path })`: the refinement runs on a parse
      that did not abort, and adds its issue after the fields' issues. */
  function Refine(o: Outcome, holds: bool, issue: Issue): (r: Outcome)
    ensures r.aborted == o.aborted
    ensures !o.aborted && !holds ==> r.issues == o.issues + [issue]
    ensures o.aborted || holds ==> r.issues == o.issues
  {
    if !o.aborted && !holds then Outcome(false, o.issues + [issue]) else o
  }

  /** A refinement's issue on another path never changes a field's message. */
  lemma RefineKeepsMessage(o: Outcome, holds: bool, issue: Issue, path: string)
    requires issue.path != path
    ensures FirstMessage(Refine(o, holds, issue).issues, path) == FirstMessage(o.issues, path)
  {
    if !o.aborted && !holds {
      FirstMessageDrop(o.issues, [issue], [], path);
      assert o.issues + [issue] + [] == o.issues + [issue];
      assert o.issues + [] == o.issues;
    }
  }

  /** The message the form shows under a field: that of the first issue
      with the field's path. */
  function FirstMessage(issues: seq<Issue>, path: string): Option<string> {
    if issues == [] then None
    else if issues[0].path == path then Some(issues[0].message)
    else FirstMessage(issues[1..], path)
  }

  /** A field shows a message exactly when some issue has its path, and the
      message is that of the earliest such issue. */
  lemma {:induction false} FirstMessageSpec(issues: seq<Issue>, path: string)
    ensures var m := FirstMessage(issues, path);
      && (m.None? <==> forall i :: 0 <= i < |issues| ==> issues[i].path != path)
      && (m.Some? ==> exists i :: 0 <= i < |issues| && issues[i] == Issue(path, m.value) &&
                                  forall j :: 0 <= j < i ==> issues[j].path != path)
  {
    if issues != [] && issues[0].path != path {
      FirstMessageSpec(issues[1..], path);
      var m := FirstMessage(issues[1..], path);
      if m.Some? {
        var i :| 0 <= i < |issues[1..]| && issues[1..][i] == Issue(path, m.value)
          && forall j :: 0 <= j < i ==> issues[1..][j].path != path;
        assert issues[i + 1] == Issue(path, m.value);
        assert forall j :: 0 <= j < i + 1 ==> issues[j].path != path by {
          forall j | 0 <= j < i + 1 ensures issues[j].path != path {
            if j > 0 {
              assert issues[j] == issues[1..][j - 1];
            }
          }
        }
      } else {
        forall j | 0 <= j < |issues| ensures issues[j].path != path {
          if j > 0 {
            assert issues[j] == issues[1..][j - 1];
          }
        }
      }
    }
  }

  /** Issues of other fields never change the message a field shows. */
  lemma {:induction false} FirstMessageDrop(a: seq<Issue>, b: seq<Issue>, c: seq<Issue>, path: string)
    requires forall i :: 0 <= i < |b| ==> b[i].path != path
    ensures FirstMessage(a + b + c, path) == FirstMessage(a + c, path)
    decreases |a| + |b|
  {
    if a != [] {
      assert (a + b + c)[1..] == a[1..] + b + c;
      assert (a + c)[1..] == a[1..] + c;
      FirstMessageDrop(a[1..], b, c, path);
    } else if b != [] {
      assert (a + b + c)[1..] == [] + b[1..] + c;
      FirstMessageDrop([], b[1..], c, path);
      assert [] + b[1..] + c == b[1..] + c;
    } else {
      assert a + b + c == a + c;
    }
  }

  /** An object none of whose fields has `path` reports no issue with it. */
  lemma NoIssueWithPath(schema: Schema, values: Values, isEmail: string -> bool, path: string)
    requires forall i :: 0 <= i < |schema| ==> schema[i].path != path
    ensures forall i :: 0 <= i < |ParseObject(schema, values, isEmail).issues| ==>
      ParseObject(schema, values, isEmail).issues[i].path != path
  {
    var issues := ParseObject(schema, values, isEmail).issues;
    ParseObjectSound(schema, values, isEmail);
    forall i | 0 <= i < |issues| ensures issues[i].path != path {
      assert issues[i] in issues;
    }
  }

  /** An object's issues are its first field's followed by the rest's. */
  lemma ParseObjectCons(schema: Schema, values: Values, isEmail: string -> bool)
    requires schema != []
    ensures ParseObject(schema, values, isEmail).issues ==
      ParseField(schema[0], Lookup(values, schema[0].path), isEmail).issues + ParseObject(schema[1..], values, isEmail).issues
  {
  }

  /** The first field's message depends only on its own issues. */
  lemma FirstFieldMessage(schema: Schema, values: Values, isEmail: string -> bool, extra: seq<Issue>)
    requires schema != []
    requires forall i :: 0 < i < |schema| ==> schema[i].path != schema[0].path
    ensures var p := schema[0].path;
      FirstMessage(ParseObject(schema, values, isEmail).issues + extra, p)
        == FirstMessage(ParseField(schema[0], Lookup(values, p), isEmail).issues + extra, p)
  {
    var p := schema[0].path;
    var head := ParseField(schema[0], Lookup(values, p), isEmail).issues;
    var tail := schema[1..];
    var rest := ParseObject(tail, values, isEmail).issues;
    ParseObjectCons(schema, values, isEmail);
    assert forall i :: 0 <= i < |tail| ==> tail[i].path != p by {
      forall i | 0 <= i < |tail| ensures tail[i].path != p {
        assert tail[i] == schema[i + 1];
      }
    }
    NoIssueWithPath(tail, values, isEmail, p);
    FirstMessageDrop(head, rest, extra, p);
    assert (head + rest) + extra == head + rest + extra;
  }

  /** Issues of another field placed first do not change a field's message. */
  lemma SkipForeignHead(head: seq<Issue>, rest: seq<Issue>, extra: seq<Issue>, p: string)
    requires forall i :: 0 <= i < |head| ==> head[i].path != p
    ensures FirstMessage((head + rest) + extra, p) == FirstMessage(rest + extra, p)
  {
    FirstMessageDrop([], head, rest + extra, p);
    assert [] + head + (rest + extra) == (head + rest) + extra;
    assert [] + (rest + extra) == rest + extra;
  }

  /** The message under a field of an object whose paths are distinct
      depends only on that field's own issues and on the issues added after
      the fields (by a refinement). */
  lemma {:induction false} FieldMessage(schema: Schema, values: Values, isEmail: string -> bool, k: nat, extra: seq<Issue>)
    requires k < |schema|
    requires forall i :: 0 <= i < |schema| && i != k ==> schema[i].path != schema[k].path
    ensures var p := schema[k].path;
      FirstMessage(ParseObject(schema, values, isEmail).issues + extra, p)
        == FirstMessage(ParseField(schema[k], Lookup(values, p), isEmail).issues + extra, p)
  {
    if k == 0 {
      FirstFieldMessage(schema, values, isEmail, extra);
    } else {
      var p := schema[k].path;
      var tail := schema[1..];
      assert tail[k - 1] == schema[k];
      assert forall i :: 0 <= i < |tail| && i != k - 1 ==> tail[i].path != tail[k - 1].path by {
        forall i | 0 <= i < |tail| && i != k - 1 ensures tail[i].path != tail[k - 1].path {
          assert tail[i] == schema[i + 1];
        }
      }
      FieldMessage(tail, values, isEmail, k - 1, extra);
      ParseObjectCons(schema, values, isEmail);
      assert schema[0].path != p;
      SkipForeignHead(ParseField(schema[0], Lookup(values, schema[0].path), isEmail).issues,
                      ParseObject(tail, values, isEmail).issues, extra, p);
    }
  }

  /** A field's own issues all carry its path, so the first of them, if any,
      is what it shows. */
  lemma OwnIssuesFirst(own: seq<Issue>, extra: seq<Issue>, path: string)
    requires forall i :: 0 <= i < |own| ==> own[i].path == path
    ensures own != [] ==> FirstMessage(own + extra, path) == Some(own[0].message)
    ensures own == [] ==> FirstMessage(own + extra, path) == FirstMessage(extra, path)
  {
    if own == [] {
      assert own + extra == extra;
    }
  }

  /** Without a refinement: the message under a field of an object whose
      paths are distinct is the first of that field's own issues. */
  lemma ObjectFieldMessage(schema: Schema, values: Values, isEmail: string -> bool, k: nat)
    requires k < |schema|
    requires forall i :: 0 <= i < |schema| && i != k ==> schema[i].path != schema[k].path
    ensures var p := schema[k].path;
      FirstMessage(ParseObject(schema, values, isEmail).issues, p)
        == FirstMessage(ParseField(schema[k], Lookup(values, p), isEmail).issues, p)
  {
    var p := schema[k].path;
    FieldMessage(schema, values, isEmail, k, []);
    assert ParseObject(schema, values, isEmail).issues + [] == ParseObject(schema, values, isEmail).issues;
    assert ParseField(schema[k], Lookup(values, p), isEmail).issues + [] == ParseField(schema[k], Lookup(values, p), isEmail).issues;
  }

  /** A string field given a value shows the message of its first failing
      check, and nothing when every check passes; a required field given
      nothing shows "Required". */
  lemma TextFieldMessage(f: Field, v: Option<string>, isEmail: string -> bool)
    requires f.kind.Text?
    ensures Effective(f, v).None? && !f.optional ==> FirstMessage(ParseField(f, v, isEmail).issues, f.path) == Some("Required")
    ensures Effective(f, v).None? && f.optional ==> FirstMessage(ParseField(f, v, isEmail).issues, f.path).None?
    ensures Effective(f, v).Some? ==>
      var ms := FailedMessages(f.kind.checks, Effective(f, v).value, isEmail);
      FirstMessage(ParseField(f, v, isEmail).issues, f.path) == if ms == [] then None else Some(ms[0])
  {
    OwnIssuesFirst(ParseField(f, v, isEmail).issues, [], f.path);
    assert ParseField(f, v, isEmail).issues + [] == ParseField(f, v, isEmail).issues;
  }

  /** `.partial()`: every field is wrapped in an optional, which returns
      `undefined` for a missing value before any inner default is applied. */
  function PartialField(f: Field): (g: Field)
    ensures g.path == f.path && g.kind == f.kind && g.optional && g.default.None?
  {
    f.(optional := true, default := None)
  }

  function Partial(schema: Schema): (r: Schema)
    ensures |r| == |schema|
    ensures forall i :: 0 <= i < |r| ==> r[i] == PartialField(schema[i])
  {
    seq(|schema|, i requires 0 <= i < |schema| => PartialField(schema[i]))
  }

  /** A partial schema accepts a missing field whatever its default, and
      checks a present one by the same rule as the original. */
  lemma PartialAccepts(f: Field, v: Option<string>, isEmail: string -> bool)
    ensures v.None? ==> ParseField(PartialField(f), v, isEmail) == Outcome(false, [])
    ensures v.None? ==> Accepts(PartialField(f), v, isEmail)
    ensures v.Some? ==> (Accepts(PartialField(f), v, isEmail) <==> Accepts(f, v, isEmail))
  {
  }

  /** The empty object passes every partial schema. */
  lemma PartialAcceptsEmpty(schema: Schema, isEmail: string -> bool)
    ensures ParseObject(Partial(schema), map[], isEmail).issues == []
  {
    ParseObjectSound(Partial(schema), map[], isEmail);
  }
}
