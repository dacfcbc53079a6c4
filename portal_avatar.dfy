/**
 * The portal profile avatar: initials from the first and last word of the
 * name, a gradient picked by the name's first UTF-16 code unit, and an
 * optional status dot.
 */
module PortalAvatar {
  import opened Wrappers
  import opened Text

  /** `getInitials`: first letters of the first and last words, or the first two characters of the raw name. */
  function Initials(name: string): (r: string)
    ensures |r| <= 2
  {
    var parts := TrimSplitWhitespace(name);
    if |parts| >= 2 && parts[0] != "" && parts[|parts| - 1] != "" then
      ToUpper([parts[0][0], parts[|parts| - 1][0]])
    else ToUpper(Prefix(name, 2))
  }

  /** Whatever the name, two or more non-empty pieces give the first letters of the first and the last. */
  lemma InitialsOfPieces(name: string, ws: seq<string>)
    requires |ws| >= 2 && ws[0] != "" && ws[|ws| - 1] != ""
    requires TrimSplitWhitespace(name) == ws
    ensures Initials(name) == ToUpper([ws[0][0], ws[|ws| - 1][0]])
  {
  }

  /** Two or more words: the first letter of the first and of the last word, upper-cased. */
  lemma InitialsFirstAndLast(first: string, middle: seq<string>, last: string)
    requires IsWord(first) && IsWord(last) && forall k :: 0 <= k < |middle| ==> IsWord(middle[k])
    ensures Initials(Join([first] + middle + [last], " ")) == ToUpper([first[0], last[0]])
  {
    var ws := [first] + middle + [last];
    AllWords(first, middle, last);
    TrimSplitOfJoin(ws);
    InitialsOfPieces(Join(ws, " "), ws);
  }

  lemma AllWords(first: string, middle: seq<string>, last: string)
    requires IsWord(first) && IsWord(last) && forall k :: 0 <= k < |middle| ==> IsWord(middle[k])
    ensures var ws := [first] + middle + [last]; forall k :: 0 <= k < |ws| ==> IsWord(ws[k])
  {
    var ws := [first] + middle + [last];
    forall k | 0 <= k < |ws|
      ensures IsWord(ws[k])
    {
      if 0 < k < |ws| - 1 {
        assert ws[k] == middle[k - 1];
      }
    }
  }

  /** A single word gives its first two characters. */
  lemma InitialsOneWord(w: string)
    requires IsWord(w)
    ensures Initials(w) == ToUpper(Prefix(w, 2))
  {
    TrimSplitOfJoin([w]);
  }

  /** A blank name gives the first two characters of the raw, untrimmed name. */
  lemma InitialsBlank(name: string)
    requires IsBlank(name)
    ensures Initials(name) == ToUpper(Prefix(name, 2))
  {
    BlankIffTrimEmpty(name);
  }

  const Gradients: seq<string> := [
    "from-blue-600 to-blue-400", "from-purple-600 to-purple-400",
    "from-emerald-600 to-emerald-400", "from-orange-600 to-orange-400",
    "from-pink-600 to-pink-400", "from-cyan-600 to-cyan-400"]

  /** `name.charCodeAt(0) % 6`; the empty name gives NaN, which indexes nothing. */
  function GradientIndex(name: string): (i: Option<nat>)
    ensures i.Some? <==> name != ""
    ensures i.Some? ==> i.value < |Gradients| && i.value == FirstCodeUnit(name[0]) % 6
  {
    if name == "" then None else Some(FirstCodeUnit(name[0]) % 6)
  }

  /** `getGradient`: one of the six gradients for a non-empty name, undefined for the empty one. */
  function Gradient(name: string): (g: Option<string>)
    ensures g.Some? <==> name != ""
    ensures g.Some? ==> g.value in Gradients
  {
    var i := GradientIndex(name);
    if i.Some? then Some(Gradients[i.value]) else None
  }

  /** The gradient depends only on the first character. */
  lemma GradientByFirstChar(a: string, b: string)
    requires a != "" && b != "" && a[0] == b[0]
    ensures Gradient(a) == Gradient(b)
  {
  }

  datatype Size = Sm | Md | Lg
  datatype Status = Online | Away | Busy | Offline

  function SizeClass(size: Size): string {
    match size
    case Sm => "h-8 w-8 text-xs"
    case Md => "h-10 w-10 text-sm"
    case Lg => "h-12 w-12 text-base"
  }

  function IndicatorClass(size: Size): string {
    match size
    case Sm => "h-2 w-2 ring-1"
    case Md => "h-2.5 w-2.5 ring-2"
    case Lg => "h-3 w-3 ring-2"
  }

  function StatusColor(status: Status): string {
    match status
    case Online => "bg-green-500"
    case Away => "bg-amber-400"
    case Busy => "bg-red-500"
    case Offline => "bg-gray-400"
  }

  datatype AvatarProps = AvatarProps(
    name: string, src: Option<string>, size: Option<Size>, showStatus: Option<bool>, status: Option<Status>)

  /** The face: the picture when a source is given, otherwise the initials on the gradient. */
  datatype Face = Picture(src: string) | InitialsFace(initials: string, gradient: Option<string>)

  datatype Rendered = Rendered(sizeClass: string, face: Face, statusDot: Option<(string, string)>)

  /** The rendered avatar, with size 'md', status 'online' and no status dot by default. */
  function Render(p: AvatarProps): (r: Rendered)
    ensures r.sizeClass == SizeClass(p.size.GetOr(Md))
    ensures r.face.Picture? <==> p.src.Some? && p.src.value != ""
    ensures r.face.InitialsFace? ==> r.face.initials == Initials(p.name) && r.face.gradient == Gradient(p.name)
    ensures r.statusDot.Some? <==> p.showStatus == Some(true)
    ensures r.statusDot.Some? ==>
      r.statusDot.value == (IndicatorClass(p.size.GetOr(Md)), StatusColor(p.status.GetOr(Online)))
  {
    var size := p.size.GetOr(Md);
    var face := if p.src.Some? && p.src.value != "" then Picture(p.src.value)
      else InitialsFace(Initials(p.name), Gradient(p.name));
    var dot := if p.showStatus.GetOr(false) then Some((IndicatorClass(size), StatusColor(p.status.GetOr(Online)))) else None;
    Rendered(SizeClass(size), face, dot)
  }

  /** With every optional prop left out: a medium avatar, no dot. */
  lemma Defaults(name: string)
    ensures Render(AvatarProps(name, None, None, None, None)) ==
      Rendered("h-10 w-10 text-sm", InitialsFace(Initials(name), Gradient(name)), None)
  {
  }
}
