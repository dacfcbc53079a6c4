/**
 * The admin header's avatar: initials from the first and SECOND word of
 * the name (unlike the portal avatar, which takes the last), falling back
 * to the raw name's first two characters.
 */
module HeaderAvatar {
  import opened Wrappers
  import opened Text
  import PortalAvatar

  /** `parts[i]?.[0] || ""`: the first character of the i-th piece, or nothing. */
  function FirstOf(parts: seq<string>, i: nat): (r: string)
    ensures |r| <= 1
    ensures r != "" <==> i < |parts| && parts[i] != ""
    ensures r != "" ==> r == [parts[i][0]]
  {
    if i < |parts| && parts[i] != "" then [parts[i][0]] else ""
  }

  /** `getInitials`. */
  function Initials(name: string): (r: string)
    ensures 1 <= |r| <= 2 || (r == "" && name == "")
  {
    var parts := TrimSplitWhitespace(name);
    var both := ToUpper(FirstOf(parts, 0) + FirstOf(parts, 1));
    if both != "" then both else ToUpper(Prefix(name, 2))
  }

  /** Whatever the name, two or more non-empty pieces give the first letters of the first two. */
  lemma InitialsOfPieces(name: string, ws: seq<string>)
    requires |ws| >= 2 && ws[0] != "" && ws[1] != ""
    requires TrimSplitWhitespace(name) == ws
    ensures Initials(name) == ToUpper([ws[0][0], ws[1][0]])
  {
    assert FirstOf(ws, 0) + FirstOf(ws, 1) == [ws[0][0], ws[1][0]];
  }

  /** Two or more words: the first letters of the first two, upper-cased. */
  lemma InitialsFirstTwo(first: string, second: string, rest: seq<string>)
    requires IsWord(first) && IsWord(second) && forall k :: 0 <= k < |rest| ==> IsWord(rest[k])
    ensures Initials(Join([first, second] + rest, " ")) == ToUpper([first[0], second[0]])
  {
    SplitOfWords(first, second, rest);
    InitialsOfPieces(Join([first, second] + rest, " "), [first, second] + rest);
  }

  /** Words joined by single spaces split back into those words. */
  lemma SplitOfWords(first: string, second: string, rest: seq<string>)
    requires IsWord(first) && IsWord(second) && forall k :: 0 <= k < |rest| ==> IsWord(rest[k])
    ensures TrimSplitWhitespace(Join([first, second] + rest, " ")) == [first, second] + rest
  {
    AllWords(first, second, rest);
    TrimSplitOfJoin([first, second] + rest);
  }

  lemma AllWords(first: string, second: string, rest: seq<string>)
    requires IsWord(first) && IsWord(second) && forall k :: 0 <= k < |rest| ==> IsWord(rest[k])
    ensures var ws := [first, second] + rest; forall k :: 0 <= k < |ws| ==> IsWord(ws[k])
  {
    var ws := [first, second] + rest;
    forall k | 0 <= k < |ws|
      ensures IsWord(ws[k])
    {
      if 2 <= k {
        assert ws[k] == rest[k - 2];
      }
    }
  }

  /** A single word gives a single letter. */
  lemma InitialsOneWord(w: string)
    requires IsWord(w)
    ensures Initials(w) == ToUpper([w[0]])
  {
    TrimSplitOfJoin([w]);
    assert Join([w], " ") == w;
    assert FirstOf([w], 0) + FirstOf([w], 1) == [w[0]];
  }

  /** A blank name falls back to the first two characters of the raw name. */
  lemma InitialsBlank(name: string)
    requires IsBlank(name)
    ensures Initials(name) == ToUpper(Prefix(name, 2))
  {
    BlankIffTrimEmpty(name);
  }

  /** Two words separated by one space. */
  lemma InitialsTwoWords(first: string, second: string)
    requires IsWord(first) && IsWord(second)
    ensures Initials(first + " " + second) == ToUpper([first[0], second[0]])
  {
    InitialsFirstTwo(first, second, []);
    assert [first, second] + [] == [first, second];
    assert Join([first, second], " ") == first + " " + second;
  }

  lemma JaneDoeInitials(name: string)
    requires name == "Jane Doe"
    ensures Initials(name) == ToUpper(['J', 'D'])
  {
    assert IsWord("Jane") && IsWord("Doe");
    assert name == "Jane" + " " + "Doe";
    InitialsTwoWords("Jane", "Doe");
  }

  /** "Jane Doe" shows "JD". */
  lemma JaneDoe(name: string)
    requires name == "Jane Doe"
    ensures Initials(name) == "JD"
  {
    JaneDoeInitials(name);
    UpperKeeps(['J', 'D']);
  }

  /** Three words: the header takes the first two, the portal avatar the first and the last. */
  lemma InitialsThreeWords(a: string, b: string, c: string)
    requires IsWord(a) && IsWord(b) && IsWord(c)
    ensures Initials(a + " " + b + " " + c) == ToUpper([a[0], b[0]])
    ensures PortalAvatar.Initials(a + " " + b + " " + c) == ToUpper([a[0], c[0]])
  {
    HeaderThree(a, b, c);
    PortalThree(a, b, c);
  }

  lemma HeaderThree(a: string, b: string, c: string)
    requires IsWord(a) && IsWord(b) && IsWord(c)
    ensures Initials(a + " " + b + " " + c) == ToUpper([a[0], b[0]])
  {
    InitialsFirstTwo(a, b, [c]);
    assert [a, b] + [c] == [a, b, c];
    JoinThree(a, b, c);
  }

  lemma PortalThree(a: string, b: string, c: string)
    requires IsWord(a) && IsWord(b) && IsWord(c)
    ensures PortalAvatar.Initials(a + " " + b + " " + c) == ToUpper([a[0], c[0]])
  {
    PortalAvatar.InitialsFirstAndLast(a, [b], c);
    assert [a] + [b] + [c] == [a, b, c];
    JoinThree(a, b, c);
  }

  lemma JoinThree(a: string, b: string, c: string)
    ensures Join([a, b, c], " ") == a + " " + b + " " + c
  {
    assert [a, b, c][1..] == [b, c] && [b, c][1..] == [c];
    assert Join([b, c], " ") == b + " " + c;
    assert a + " " + (b + " " + c) == a + " " + b + " " + c;
  }

  lemma SampleInitials(name: string)
    requires name == "Ann Bo Cy"
    ensures Initials(name) == ToUpper(['A', 'B'])
    ensures PortalAvatar.Initials(name) == ToUpper(['A', 'C'])
  {
    assert IsWord("Ann") && IsWord("Bo") && IsWord("Cy");
    assert name == "Ann" + " " + "Bo" + " " + "Cy";
    InitialsThreeWords("Ann", "Bo", "Cy");
  }

  /** So on "Ann Bo Cy" the two avatars disagree. */
  lemma AvatarsDisagree(name: string)
    requires name == "Ann Bo Cy"
    ensures Initials(name) == "AB"
    ensures PortalAvatar.Initials(name) == "AC"
  {
    SampleInitials(name);
    UpperKeeps(['A', 'B']);
    UpperKeeps(['A', 'C']);
  }

  datatype Size = Sm | Md | Lg
  datatype Status = Online | Away | Busy

  function SizeClass(size: Size): string {
    match size
    case Sm => "h-6 w-6 text-xs"
    case Md => "h-10 w-10 text-sm"
    case Lg => "h-14 w-14 text-base"
  }

  function StatusColor(status: Status): string {
    match status
    case Online => "bg-green-500"
    case Away => "bg-amber-400"
    case Busy => "bg-red-500"
  }

  datatype AvatarProps = AvatarProps(
    name: string, src: Option<string>, size: Option<Size>, showStatus: Option<bool>, status: Option<Status>)

  datatype Rendered = Rendered(sizeClass: string, picture: Option<string>, initials: Option<string>, statusDot: Option<string>)

  /** The rendered avatar: size 'md' and status 'online' by default, a dot only when asked for. */
  function Render(p: AvatarProps): (r: Rendered)
    ensures r.sizeClass == SizeClass(p.size.GetOr(Md))
    ensures r.picture.Some? <==> p.src.Some? && p.src.value != ""
    ensures r.initials.Some? <==> r.picture.None?
    ensures r.initials.Some? ==> r.initials.value == Initials(p.name)
    ensures r.statusDot.Some? <==> p.showStatus == Some(true)
    ensures r.statusDot.Some? ==> r.statusDot.value == StatusColor(p.status.GetOr(Online))
  {
    var pic := if p.src.Some? && p.src.value != "" then p.src else None;
    Rendered(SizeClass(p.size.GetOr(Md)), pic,
      if pic.Some? then None else Some(Initials(p.name)),
      if p.showStatus == Some(true) then Some(StatusColor(p.status.GetOr(Online))) else None)
  }
}
