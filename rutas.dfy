/**
 * The navigation routes of the app (the `Rutas` object): three fixed routes, two route
 * templates with `{name}` placeholders, and the two builders that fill them in.
 */
module Rutas {
  import opened Wrappers

  const INICIO: string := "inicio"
  const AMIGOS: string := "amigos"
  const MENSAJES: string := "mensajes"
  const CONVERSACION: string := "conversacion/{username}"
  const PERFIL: string := "perfil/{username}/{tipo}"

  /** The route to the conversation with `username`. */
  function Conversacion(username: string): (r: string)
    ensures |r| == 13 + |username|
    ensures r[..13] == "conversacion/" && r[13..] == username
  {
    "conversacion/" + username
  }

  /** The route to the profile of `username`, of kind `tipo` ("propio" or "ajeno"). */
  function Perfil(username: string, tipo: string): (r: string)
    ensures |r| == 8 + |username| + |tipo|
    ensures r[..7] == "perfil/" && r[7..7 + |username|] == username
    ensures r[7 + |username|] == '/' && r[8 + |username|..] == tipo
  {
    "perfil/" + username + "/" + tipo
  }

  // Filling a route template, the direction in which a template and its builder must agree.

  /** The placeholder that stands for argument `name` in a route template. */
  function Placeholder(name: string): string {
    "{" + name + "}"
  }

  /**
   * The length and value of the first argument whose placeholder starts `s`, if any.
   * Arguments are `(name, value)` pairs and are tried in order.
   */
  function MatchArg(s: string, args: seq<(string, string)>): (m: Option<(nat, string)>)
    ensures m.Some? ==> 2 <= m.value.0 <= |s| && s[0] == '{'
  {
    if args == [] then None
    else
      var p := Placeholder(args[0].0);
      if |p| <= |s| && s[..|p|] == p then Some((|p|, args[0].1))
      else MatchArg(s, args[1..])
  }

  /** Whether the placeholder of argument `name` starts `s`. */
  predicate StartsWithPlaceholder(s: string, name: string) {
    var p := Placeholder(name);
    |p| <= |s| && s[..|p|] == p
  }

  /**
   * `MatchArg` finds the first listed argument whose placeholder starts `s`, and returns that
   * placeholder's length and the argument's value; it finds nothing exactly when no listed
   * placeholder starts `s`.
   */
  lemma {:induction false} MatchArgFindsFirst(s: string, args: seq<(string, string)>)
    ensures MatchArg(s, args).Some? ==>
      exists k :: 0 <= k < |args| && StartsWithPlaceholder(s, args[k].0)
        && MatchArg(s, args).value == (|Placeholder(args[k].0)|, args[k].1)
        && (forall j :: 0 <= j < k ==> !StartsWithPlaceholder(s, args[j].0))
    ensures MatchArg(s, args).None? <==>
      forall k :: 0 <= k < |args| ==> !StartsWithPlaceholder(s, args[k].0)
    decreases |args|
  {
    if args != [] {
      var rest := args[1..];
      MatchArgFindsFirst(s, rest);
      if StartsWithPlaceholder(s, args[0].0) {
        assert MatchArg(s, args).value == (|Placeholder(args[0].0)|, args[0].1);
      } else {
        assert MatchArg(s, args) == MatchArg(s, rest);
        if MatchArg(s, rest).Some? {
          var k :| 0 <= k < |rest| && StartsWithPlaceholder(s, rest[k].0)
            && MatchArg(s, rest).value == (|Placeholder(rest[k].0)|, rest[k].1)
            && (forall j :: 0 <= j < k ==> !StartsWithPlaceholder(s, rest[j].0));
          assert args[k + 1] == rest[k];
          forall j | 0 <= j < k + 1
            ensures !StartsWithPlaceholder(s, args[j].0)
          {
            if j > 0 { assert args[j] == rest[j - 1]; }
          }
        } else {
          forall k | 0 <= k < |args|
            ensures !StartsWithPlaceholder(s, args[k].0)
          {
            if k > 0 { assert args[k] == rest[k - 1]; }
          }
        }
      }
    }
  }

  /**
   * `template` with every placeholder of a listed argument replaced by that argument's value,
   * all at once: a value is never searched for further placeholders.
   */
  function Fill(template: string, args: seq<(string, string)>): string
    decreases |template|
  {
    if template == [] then []
    else match MatchArg(template, args)
      case Some((n, v)) => v + Fill(template[n..], args)
      case None => [template[0]] + Fill(template[1..], args)
  }

  /** Literal text without '{' is copied through by `Fill`. */
  lemma {:induction false} FillLiteral(lit: string, rest: string, args: seq<(string, string)>)
    requires forall i :: 0 <= i < |lit| ==> lit[i] != '{'
    ensures Fill(lit + rest, args) == lit + Fill(rest, args)
    decreases |lit|
  {
    if lit != [] {
      var s := lit + rest;
      assert s[0] == lit[0];
      assert MatchArg(s, args) == None;
      assert Fill(s, args) == [lit[0]] + Fill(s[1..], args);
      assert s[1..] == lit[1..] + rest;
      FillLiteral(lit[1..], rest, args);
      assert lit == [lit[0]] + lit[1..];
      calc {
        Fill(s, args);
        [lit[0]] + Fill(lit[1..] + rest, args);
        [lit[0]] + (lit[1..] + Fill(rest, args));
        ([lit[0]] + lit[1..]) + Fill(rest, args);
        lit + Fill(rest, args);
      }
    } else {
      assert lit + rest == rest;
    }
  }

  /** A placeholder whose argument is the one `MatchArg` picks is replaced by its value. */
  lemma FillPlaceholder(name: string, value: string, rest: string, args: seq<(string, string)>)
    requires MatchArg(Placeholder(name) + rest, args) == Some((|Placeholder(name)|, value))
    ensures Fill(Placeholder(name) + rest, args) == value + Fill(rest, args)
  {
    var s := Placeholder(name) + rest;
    assert s[|Placeholder(name)|..] == rest;
  }

  /** The arguments navigation passes to the conversation route. */
  function ConversacionArgs(username: string): seq<(string, string)> {
    [("username", username)]
  }

  /** The arguments navigation passes to the profile route. */
  function PerfilArgs(username: string, tipo: string): seq<(string, string)> {
    [("username", username), ("tipo", tipo)]
  }

  /** Filling `CONVERSACION` with the username gives exactly the route `Conversacion` builds. */
  lemma ConversacionMatchesTemplate(username: string)
    ensures Fill(CONVERSACION, ConversacionArgs(username)) == Conversacion(username)
  {
    var args := ConversacionArgs(username);
    assert CONVERSACION == "conversacion/" + (Placeholder("username") + []);
    FillLiteral("conversacion/", Placeholder("username") + [], args);
    MatchUsername([], args);
    FillPlaceholder("username", username, [], args);
  }

  /**
   * Filling `PERFIL` with username and tipo gives exactly the route `Perfil` builds, whatever
   * the two values contain (placeholders inside a value included).
   */
  lemma PerfilMatchesTemplate(username: string, tipo: string)
    ensures Fill(PERFIL, PerfilArgs(username, tipo)) == Perfil(username, tipo)
  {
    var args := PerfilArgs(username, tipo);
    var tail := Placeholder("tipo") + [];
    var afterName := "/" + tail;
    var s := Placeholder("username") + afterName;
    assert PERFIL == "perfil/" + s;
    calc {
      Fill(PERFIL, args);
      { FillLiteral("perfil/", s, args); }
      "perfil/" + Fill(s, args);
      { MatchUsername(afterName, args); FillPlaceholder("username", username, afterName, args); }
      "perfil/" + (username + Fill(afterName, args));
      { FillLiteral("/", tail, args); }
      "perfil/" + (username + ("/" + Fill(tail, args)));
      { MatchTipo(username, tipo); FillPlaceholder("tipo", tipo, [], args); }
      "perfil/" + (username + ("/" + (tipo + Fill([], args))));
      Perfil(username, tipo);
    }
  }

  lemma MatchUsername(rest: string, args: seq<(string, string)>)
    requires |args| > 0 && args[0].0 == "username"
    ensures MatchArg(Placeholder("username") + rest, args) == Some((|Placeholder("username")|, args[0].1))
  {
    var s := Placeholder("username") + rest;
    assert s[..|Placeholder("username")|] == Placeholder("username");
  }

  lemma MatchTipo(username: string, tipo: string)
    ensures MatchArg(Placeholder("tipo") + [], PerfilArgs(username, tipo)) == Some((|Placeholder("tipo")|, tipo))
  {
    var args := PerfilArgs(username, tipo);
    var s := Placeholder("tipo") + [];
    assert s == "{tipo}";
    assert |s| < |Placeholder("username")|;
    assert args[1..] == [("tipo", tipo)];
    assert s[..|Placeholder("tipo")|] == Placeholder("tipo");
  }

  /** Different usernames lead to different conversation routes. */
  lemma ConversacionInjective(a: string, b: string)
    requires Conversacion(a) == Conversacion(b)
    ensures a == b
  {
  }

  /**
   * Profile routes identify their arguments as long as the username is a single path segment
   * (has no '/'); the builder itself checks nothing.
   */
  lemma PerfilInjective(u1: string, t1: string, u2: string, t2: string)
    requires Perfil(u1, t1) == Perfil(u2, t2)
    requires '/' !in u1 && '/' !in u2
    ensures u1 == u2 && t1 == t2
  {
    var r := Perfil(u1, t1);
    assert |u1| == |u2|;
    assert u1 == r[7..7 + |u1|] == u2;
  }

  /** Without that condition two different profiles share a route. */
  lemma PerfilNotInjective()
    ensures Perfil("a/b", "c") == Perfil("a", "b/c")
  {
  }

  /** The three fixed routes are pairwise different and are single path segments. */
  lemma FixedRoutesDistinct()
    ensures INICIO != AMIGOS && INICIO != MENSAJES && AMIGOS != MENSAJES
    ensures '/' !in INICIO && '/' !in AMIGOS && '/' !in MENSAJES
  {
  }

  /** A built route always has a '/', so it never equals one of the fixed routes. */
  lemma BuiltRoutesAreNotFixed(username: string, tipo: string)
    ensures Conversacion(username) !in {INICIO, AMIGOS, MENSAJES}
    ensures Perfil(username, tipo) !in {INICIO, AMIGOS, MENSAJES}
  {
    var c, p := Conversacion(username), Perfil(username, tipo);
    assert c[12] == '/' && p[6] == '/';
    FixedRoutesDistinct();
  }
}
