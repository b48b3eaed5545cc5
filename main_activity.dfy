/**
 * The feed screen's state (`InicioUI`): the like and save toggles with their counters and the
 * comments sheet; the icons its side bar (`RightSideBar`) shows; and how the navigation host
 * (`AppScreen`) turns route arguments into the profile and conversation screens.
 */
module MainActivity {
  import opened Wrappers
  import opened KotlinText
  import Rutas
  import Pantallas
  import Componentes

  // ---------------------------------------------------------------------------------------
  // Like and save toggles

  /** A toggle with its counter: `isLiked`/`likeCount` or `isSaved`/`saveCount`. */
  datatype Toggle = Toggle(on: bool, count: int)

  const LIKE_START: Toggle := Toggle(false, 1765)
  const SAVE_START: Toggle := Toggle(false, 321)

  /** A click: flip the flag, then count up if it is now on and down if it is now off. */
  function Click(t: Toggle): Toggle {
    var on := !t.on;
    Toggle(on, if on then t.count + 1 else t.count - 1)
  }

  /** The counter is the base count plus one exactly while the toggle is on. */
  predicate Tracks(t: Toggle, base: int) {
    t.count == base + (if t.on then 1 else 0)
  }

  lemma ClickFlips(t: Toggle)
    ensures Click(t).on == !t.on
    ensures Click(t).count == t.count + (if Click(t).on then 1 else -1)
  {
  }

  /** Two clicks restore both the flag and the counter. */
  lemma ClickTwiceRestores(t: Toggle)
    ensures Click(Click(t)) == t
  {
  }

  lemma ClickKeepsTracking(t: Toggle, base: int)
    requires Tracks(t, base)
    ensures Tracks(Click(t), base)
  {
  }

  /** `n` clicks in a row. */
  function Clicks(t: Toggle, n: nat): Toggle {
    if n == 0 then t else Click(Clicks(t, n - 1))
  }

  /** However often it is clicked, a toggle that starts off keeps its counter at base or base + 1. */
  lemma {:induction false} ClicksTrack(t: Toggle, base: int, n: nat)
    requires Tracks(t, base) && !t.on
    ensures Tracks(Clicks(t, n), base)
    ensures Clicks(t, n).on <==> n % 2 == 1
    ensures base <= Clicks(t, n).count <= base + 1
  {
    if n > 0 {
      ClicksTrack(t, base, n - 1);
      ClickKeepsTracking(Clicks(t, n - 1), base);
    }
  }

  /** The feed screen's remembered state. */
  datatype Inicio = Inicio(like: Toggle, save: Toggle, showSheet: bool)

  const INICIO_START: Inicio := Inicio(LIKE_START, SAVE_START, false)

  datatype InicioEvent = LikeClick | CommentsClick | SaveClick | DismissSheet

  function Step(s: Inicio, e: InicioEvent): Inicio {
    match e
    case LikeClick => s.(like := Click(s.like))
    case CommentsClick => s.(showSheet := true)
    case SaveClick => s.(save := Click(s.save))
    case DismissSheet => s.(showSheet := false)
  }

  /** Each control changes only its own part of the state. */
  lemma StepsAreIndependent(s: Inicio)
    ensures Step(s, LikeClick).save == s.save && Step(s, LikeClick).showSheet == s.showSheet
    ensures Step(s, SaveClick).like == s.like && Step(s, SaveClick).showSheet == s.showSheet
    ensures Step(s, CommentsClick) == s.(showSheet := true)
    ensures Step(s, DismissSheet) == s.(showSheet := false)
  {
  }

  function RunInicio(s: Inicio, es: seq<InicioEvent>): Inicio
    decreases |es|
  {
    if es == [] then s else RunInicio(Step(s, es[0]), es[1..])
  }

  /** The counters' invariant: 1765 plus one while liked, 321 plus one while saved. */
  predicate CountsConsistent(s: Inicio) {
    Tracks(s.like, 1765) && Tracks(s.save, 321)
  }

  /** After any sequence of clicks from the start, both counters agree with their flags. */
  lemma {:induction false} RunKeepsCounts(s: Inicio, es: seq<InicioEvent>)
    requires CountsConsistent(s)
    ensures CountsConsistent(RunInicio(s, es))
    decreases |es|
  {
    if es != [] {
      var s' := Step(s, es[0]);
      if es[0] == LikeClick { ClickKeepsTracking(s.like, 1765); }
      if es[0] == SaveClick { ClickKeepsTracking(s.save, 321); }
      RunRestIsRun(s, es);
      RunKeepsCounts(s', es[1..]);
    }
  }

  lemma RunRestIsRun(s: Inicio, es: seq<InicioEvent>)
    requires es != []
    ensures RunInicio(s, es) == RunInicio(Step(s, es[0]), es[1..])
  {
  }

  lemma StartCountsConsistent()
    ensures CountsConsistent(INICIO_START)
  {
  }

  /** The remembered variables of `InicioUI`, reassigned by the side bar's click handlers. */
  class InicioUI {
    var isLiked: bool
    var likeCount: int
    var isSaved: bool
    var saveCount: int
    var showSheet: bool

    ghost function State(): Inicio
      reads this
    {
      Inicio(Toggle(isLiked, likeCount), Toggle(isSaved, saveCount), showSheet)
    }

    ghost predicate Valid()
      reads this
    {
      CountsConsistent(State())
    }

    constructor ()
      ensures State() == INICIO_START && Valid()
    {
      isLiked, likeCount := false, 1765;
      isSaved, saveCount := false, 321;
      showSheet := false;
    }

    method OnLikeClick()
      requires Valid()
      modifies this
      ensures Valid() && State() == Step(old(State()), LikeClick)
    {
      isLiked := !isLiked;
      likeCount := if isLiked then likeCount + 1 else likeCount - 1;
      ClickKeepsTracking(old(State()).like, 1765);
    }

    method OnCommentsClick()
      requires Valid()
      modifies this
      ensures Valid() && State() == Step(old(State()), CommentsClick)
    {
      showSheet := true;
    }

    method OnSaveClick()
      requires Valid()
      modifies this
      ensures Valid() && State() == Step(old(State()), SaveClick)
    {
      isSaved := !isSaved;
      saveCount := if isSaved then saveCount + 1 else saveCount - 1;
      ClickKeepsTracking(old(State()).save, 321);
    }

    /** The sheet's `onDismissRequest`. */
    method OnDismissRequest()
      requires Valid()
      modifies this
      ensures Valid() && State() == Step(old(State()), DismissSheet)
    {
      showSheet := false;
    }
  }

  // ---------------------------------------------------------------------------------------
  // The side bar

  datatype Drawable = CirculoPerfil | CorazonA | CorazonC | IcComentarios | GuardarA | GuardarB

  /** What clicking a side-bar icon does. */
  datatype SideBarAction = Navigate(route: string) | OnLike | OnComments | OnSave

  /** One `ActionIcon` call: the image, the optional count and the click action. */
  datatype SideBarItem = SideBarItem(icon: Drawable, count: Option<string>, action: SideBarAction)

  /** The four icons of `RightSideBar`, top to bottom. */
  function RightSideBar(isLiked: bool, likeCount: int, isSaved: bool, saveCount: int): seq<SideBarItem> {
    [
      SideBarItem(CirculoPerfil, None, Navigate(Rutas.Perfil("Chalito_ms", "ajeno"))),
      SideBarItem(if isLiked then CorazonA else CorazonC, Some(IntToString(likeCount)), OnLike),
      SideBarItem(IcComentarios, Some("4"), OnComments),
      SideBarItem(if isSaved then GuardarA else GuardarB, Some(IntToString(saveCount)), OnSave)
    ]
  }

  /** The filled heart exactly when liked, the filled bookmark exactly when saved. */
  lemma SideBarIcons(isLiked: bool, likeCount: int, isSaved: bool, saveCount: int)
    ensures var items := RightSideBar(isLiked, likeCount, isSaved, saveCount);
      && (items[1].icon == CorazonA <==> isLiked) && items[1].icon in {CorazonA, CorazonC}
      && (items[3].icon == GuardarA <==> isSaved) && items[3].icon in {GuardarA, GuardarB}
  {
  }

  /**
   * Which counts appear: the like and save counts always (their text is never empty, and it
   * reads back as the number), the comment count "4", and none under the profile picture.
   */
  lemma SideBarCounts(isLiked: bool, likeCount: int, isSaved: bool, saveCount: int)
    ensures var items := RightSideBar(isLiked, likeCount, isSaved, saveCount);
      && Componentes.CountLabel(items[0].count) == None
      && Componentes.CountLabel(items[1].count) == Some(IntToString(likeCount))
      && Componentes.CountLabel(items[2].count) == Some("4")
      && Componentes.CountLabel(items[3].count) == Some(IntToString(saveCount))
  {
  }

  /** The like count shown on the feed reads back as the counter, after any clicks. */
  lemma ShownLikeCountIsCounter(es: seq<InicioEvent>)
    ensures var s := RunInicio(INICIO_START, es);
      var shown := Componentes.CountLabel(RightSideBar(s.like.on, s.like.count, s.save.on, s.save.count)[1].count);
      && s.like.count >= 1765
      && shown == Some(NatToString(s.like.count))
      && DigitsValue(shown.value) == s.like.count
  {
    StartCountsConsistent();
    RunKeepsCounts(INICIO_START, es);
    var s := RunInicio(INICIO_START, es);
    NatToStringReadsBack(s.like.count);
  }

  // ---------------------------------------------------------------------------------------
  // Route arguments

  /** The arguments of a back-stack entry (`Bundle?`): absent, or a map from name to value. */
  type Arguments = Option<map<string, string>>

  /** `arguments?.getString(key) ?: default`. */
  function ArgOrDefault(arguments: Arguments, key: string, default: string): (v: string)
    ensures arguments.Some? && key in arguments.value ==> v == arguments.value[key]
    ensures arguments.None? || key !in arguments.value ==> v == default
  {
    match arguments
    case Some(bundle) => if key in bundle then bundle[key] else default
    case None => default
  }

  /** The profile destination: username defaults to "", tipo to "ajeno"; the controller is always passed. */
  function PerfilDestination(arguments: Arguments): Pantallas.PerfilView {
    Pantallas.PantallaPerfil(ArgOrDefault(arguments, "username", ""), ArgOrDefault(arguments, "tipo", "ajeno"), true)
  }

  /** The username the conversation destination receives, defaulting to "". */
  function ConversacionUsername(arguments: Arguments): string {
    ArgOrDefault(arguments, "username", "")
  }

  /** Missing arguments: an empty username, and a profile treated as someone else's, with a back button. */
  lemma MissingArgumentsDefault(arguments: Arguments)
    requires arguments.None? || ("username" !in arguments.value && "tipo" !in arguments.value)
    ensures ConversacionUsername(arguments) == ""
    ensures PerfilDestination(arguments) == Pantallas.PerfilView("Perfil de ", true)
  {
  }

  /** A missing tipo alone still gives the "ajeno" screen, with the back button. */
  lemma MissingTipoIsAjeno(username: string)
    ensures PerfilDestination(Some(map["username" := username])) == Pantallas.PerfilView("Perfil de " + username, true)
  {
  }

  /** Arguments that are present are passed through unchanged. */
  lemma PresentArgumentsPassThrough(username: string, tipo: string)
    ensures PerfilDestination(Some(map["username" := username, "tipo" := tipo])) == Pantallas.PantallaPerfil(username, tipo, true)
    ensures ConversacionUsername(Some(map["username" := username])) == username
  {
  }
}
