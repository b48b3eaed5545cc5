/** The profile screen (`PantallaPerfil`): its title text and whether it offers a back button. */
module Pantallas {

  /** What the profile screen shows: the title line and whether the "Volver" button is present. */
  datatype PerfilView = PerfilView(title: string, showsBackButton: bool)

  const PROPIO: string := "propio"
  const AJENO: string := "ajeno"

  /**
   * The profile screen for `username` and `tipo`. `hasNavController` says whether the optional
   * navigation controller was passed (it is `null` by default).
   */
  function PantallaPerfil(username: string, tipo: string, hasNavController: bool): PerfilView {
    PerfilView(
      if tipo == PROPIO then "Perfil propio de " + username else "Perfil de " + username,
      tipo == AJENO && hasNavController)
  }

  /** The title always ends with the username; the own-profile heading is used iff tipo is "propio". */
  lemma TitleRule(username: string, tipo: string, hasNavController: bool)
    ensures var t := PantallaPerfil(username, tipo, hasNavController).title;
      && |t| >= |username| && t[|t| - |username|..] == username
      && (tipo == PROPIO ==> t == "Perfil propio de " + username)
      && (tipo != PROPIO ==> t == "Perfil de " + username)
  {
    var t := PantallaPerfil(username, tipo, hasNavController).title;
    if tipo == PROPIO {
      assert t[17..] == username;
    } else {
      assert t[10..] == username;
    }
  }

  /** The back button is shown exactly when tipo is "ajeno" and a controller is available. */
  lemma BackButtonRule(username: string, tipo: string, hasNavController: bool)
    ensures PantallaPerfil(username, tipo, hasNavController).showsBackButton <==> tipo == AJENO && hasNavController
  {
  }

  /** One's own profile never has a back button. */
  lemma PropioHasNoBackButton(username: string, hasNavController: bool)
    ensures !PantallaPerfil(username, PROPIO, hasNavController).showsBackButton
  {
  }

  /** A tipo that is neither "propio" nor "ajeno" is shown as someone else's profile without a back button. */
  lemma UnknownTipo(username: string, tipo: string, hasNavController: bool)
    requires tipo != PROPIO && tipo != AJENO
    ensures PantallaPerfil(username, tipo, hasNavController) == PerfilView("Perfil de " + username, false)
  {
  }

  /**
   * The title alone tells the two kinds apart: an own-profile title never equals another
   * kind's title, whatever the two usernames are.
   */
  lemma TitleTellsKind(u1: string, u2: string, tipo: string, n1: bool, n2: bool)
    requires tipo != PROPIO
    ensures PantallaPerfil(u1, PROPIO, n1).title != PantallaPerfil(u2, tipo, n2).title
  {
    var a, b := PantallaPerfil(u1, PROPIO, n1).title, PantallaPerfil(u2, tipo, n2).title;
    assert a[7] == 'p' && b[7] == 'd';
  }

  /** For a fixed tipo, different usernames give different titles. */
  lemma TitleNamesUser(u1: string, u2: string, tipo: string, n1: bool, n2: bool)
    requires PantallaPerfil(u1, tipo, n1).title == PantallaPerfil(u2, tipo, n2).title
    ensures u1 == u2
  {
    TitleRule(u1, tipo, n1);
    TitleRule(u2, tipo, n2);
    var t := PantallaPerfil(u1, tipo, n1).title;
    if tipo == PROPIO {
      assert u1 == t[17..] == u2;
    } else {
      assert u1 == t[10..] == u2;
    }
  }
}
