/**
 * The webhook shape and its path rule (webhook.go). A request path is
 * routed to a webhook when it is the webhook's path, or the webhook's path
 * followed by '/' and a residual "action".
 */
module Webhook {

  /**
   * A webhook: the values of its `Name`, `Desc` and `Path` accessors and
   * its `HandleAdmission` operation, kept abstract as `H`.
   */
  datatype Webhook<H> = Webhook(name: string, desc: string, path: string, handler: H)

  /**
   * `GetWebhookAction`: the residual action after `webhookPath`, and
   * whether `path` belongs to the webhook at all.
   */
  function GetWebhookAction(path: string, webhookPath: string): (r: (string, bool))
    ensures r.1 ==> (path == webhookPath && r.0 == "") || path == webhookPath + "/" + r.0
    ensures !r.1 ==> r.0 == ""
  {
    if webhookPath <= path then
      if |path| == |webhookPath| then ("", true)
      else if path[|webhookPath|] == '/' then (path[|webhookPath| + 1..], true)
      else ("", false)
    else ("", false)
  }

  /** The webhook's own path matches with an empty action. */
  lemma ExactPathMatches(webhookPath: string)
    ensures GetWebhookAction(webhookPath, webhookPath) == ("", true)
  {
  }

  /** Whatever follows the separator is the action, even if empty or containing '/'. */
  lemma {:induction false} ActionAfterSeparator(webhookPath: string, rest: string)
    ensures GetWebhookAction(webhookPath + "/" + rest, webhookPath) == (rest, true)
  {
    var p := webhookPath + "/" + rest;
    assert webhookPath <= p;
    assert p[|webhookPath|] == '/';
    assert p[|webhookPath| + 1..] == rest;
  }

  /** A path that does not start with the webhook's path is not routed to it. */
  lemma NoPrefixNoMatch(path: string, webhookPath: string)
    requires !(webhookPath <= path)
    ensures GetWebhookAction(path, webhookPath) == ("", false)
  {
  }

  /** Boundary check: a longer path whose next character is not '/' is not routed. */
  lemma BoundaryCheck(path: string, webhookPath: string)
    requires |webhookPath| < |path| && path[|webhookPath|] != '/'
    ensures GetWebhookAction(path, webhookPath) == ("", false)
  {
  }

  /** For instance "/foobar" does not belong to the webhook at "/foo". */
  lemma FooDoesNotMatchFoobar()
    ensures GetWebhookAction("/foobar", "/foo") == ("", false)
  {
    BoundaryCheck("/foobar", "/foo");
  }

  /**
   * The routing rule is exactly "equal, or prefix then '/'": `ok` holds iff
   * the path can be rebuilt from the webhook's path and some action.
   */
  lemma {:induction false} MatchIffReconstructible(path: string, webhookPath: string)
    ensures GetWebhookAction(path, webhookPath).1 <==>
      (path == webhookPath || exists rest :: path == webhookPath + "/" + rest)
  {
    if path != webhookPath && exists rest :: path == webhookPath + "/" + rest {
      var rest :| path == webhookPath + "/" + rest;
      ActionAfterSeparator(webhookPath, rest);
    }
  }

  /**
   * If one path is routed to two webhooks, their paths are equal or the
   * shorter one followed by '/' is a prefix of the longer one. Nested paths
   * such as "/foo" and "/foo/bar" can both match; unrelated siblings such as
   * "/foo" and "/foobar" cannot.
   */
  lemma {:induction false} MatchingPathsNested(path: string, w1: string, w2: string)
    requires GetWebhookAction(path, w1).1 && GetWebhookAction(path, w2).1
    requires |w1| <= |w2|
    ensures w1 == w2 || w1 + "/" <= w2
  {
    assert w1 == path[..|w1|] && w2 == path[..|w2|];
    if |w1| < |w2| {
      assert path[|w1|] == '/';
      assert w2[..|w1| + 1] == path[..|w1| + 1] == w1 + "/";
    }
  }

  /** Splits `s` at every '\n'; a trailing '\n' yields a final empty line. */
  function Lines(s: string): (r: seq<string>)
    ensures |r| >= 1
  {
    if s == [] then [""]
    else
      var rest := Lines(s[1..]);
      if s[0] == '\n' then [""] + rest else [[s[0]] + rest[0]] + rest[1..]
  }

  lemma {:induction false} LinesOfLine(a: string)
    requires '\n' !in a
    ensures Lines(a) == [a]
  {
    if a != [] {
      assert a[0] in a;
      LinesOfLine(a[1..]);
      assert [a[0]] + a[1..] == a;
    }
  }

  lemma {:induction false} LinesOfConcat(a: string, b: string)
    requires '\n' !in a
    ensures Lines(a + "\n" + b) == [a] + Lines(b)
  {
    if a == [] {
      assert a + "\n" + b == "\n" + b;
      assert ("\n" + b)[1..] == b;
    } else {
      LinesOfConcat(a[1..], b);
      assert (a + "\n" + b)[1..] == a[1..] + "\n" + b;
      assert [a[0]] + a[1..] == a;
    }
  }

  /**
   * `ToString`: the indented Name, Description and Path lines. When no
   * field holds a newline these are exactly three lines, the last one
   * without a trailing newline.
   */
  function ToString<H>(webhook: Webhook<H>, indent: string): (r: string)
    ensures r == indent + "Name:        " + webhook.name + "\n"
               + indent + "Description: " + webhook.desc + "\n"
               + indent + "Path:        " + webhook.path
    ensures '\n' !in indent && '\n' !in webhook.name && '\n' !in webhook.desc && '\n' !in webhook.path ==>
      Lines(r) ==
        [indent + "Name:        " + webhook.name,
         indent + "Description: " + webhook.desc,
         indent + "Path:        " + webhook.path]
  {
    var l1 := indent + "Name:        " + webhook.name;
    var l2 := indent + "Description: " + webhook.desc;
    var l3 := indent + "Path:        " + webhook.path;
    var r := l1 + "\n" + (l2 + "\n" + l3);
    if '\n' !in indent && '\n' !in webhook.name && '\n' !in webhook.desc && '\n' !in webhook.path then
      LinesOfLine(l3);
      LinesOfConcat(l2, l3);
      LinesOfConcat(l1, l2 + "\n" + l3);
      r
    else r
  }
}
