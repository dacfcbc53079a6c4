/**
 * The site footer: the organisation settings from the settings provider
 * override the component's props field by field, the logo falls back to
 * initials built from the organisation name, and the links and contact
 * details fall back to fixed defaults. A setting or prop that is null or
 * undefined is None.
 */
module Footer {
  import opened Wrappers
  import opened Text

  datatype LegalLinks = LegalLinks(terms: Option<string>, privacy: Option<string>, refund: Option<string>)

  /** The provider's settings; None for the whole record when there is no provider or no settings yet. */
  datatype OrgSettings = OrgSettings(
    name: Option<string>, logoUrl: Option<string>, contactEmail: Option<string>,
    contactPhone: Option<string>, legalLinks: Option<LegalLinks>)

  datatype Props = Props(
    orgName: Option<string>, orgLogoUrl: Option<string>, contactEmail: Option<string>,
    contactPhone: Option<string>, legalLinks: Option<LegalLinks>)

  /** The footer's inputs once the settings have been applied. */
  datatype Resolved = Resolved(
    orgName: string, orgLogoUrl: Option<string>, contactEmail: Option<string>,
    contactPhone: Option<string>, legalLinks: Option<LegalLinks>)

  const DefaultOrgName := "Accounting Firm"

  /** `a ?? b`: only a null or undefined left side gives way. */
  function Coalesce<T>(a: Option<T>, b: Option<T>): (r: Option<T>)
    ensures a.Some? ==> r == a
    ensures a.None? ==> r == b
  {
    if a.Some? then a else b
  }

  /** `v || fallback` for an optional string: missing and empty both fall back. */
  function OrElse(v: Option<string>, fallback: string): (r: string)
    ensures v.Some? && v.value != "" ==> r == v.value
    ensures v.None? || v.value == "" ==> r == fallback
  {
    if v.Some? && v.value != "" then v.value else fallback
  }

  /**
   * `ctx?.settings?.x ?? prop` for every field; the name prop defaults to
   * 'Accounting Firm' before the settings are consulted.
   */
  function Resolve(settings: Option<OrgSettings>, p: Props): (r: Resolved)
    ensures settings.Some? && settings.value.name.Some? ==> r.orgName == settings.value.name.value
    ensures (settings.None? || settings.value.name.None?) ==> r.orgName == p.orgName.GetOr(DefaultOrgName)
    ensures settings.Some? && settings.value.logoUrl.Some? ==> r.orgLogoUrl == settings.value.logoUrl
    ensures (settings.None? || settings.value.logoUrl.None?) ==> r.orgLogoUrl == p.orgLogoUrl
    ensures settings.Some? && settings.value.contactEmail.Some? ==> r.contactEmail == settings.value.contactEmail
    ensures (settings.None? || settings.value.contactEmail.None?) ==> r.contactEmail == p.contactEmail
    ensures settings.Some? && settings.value.contactPhone.Some? ==> r.contactPhone == settings.value.contactPhone
    ensures (settings.None? || settings.value.contactPhone.None?) ==> r.contactPhone == p.contactPhone
    ensures settings.Some? && settings.value.legalLinks.Some? ==> r.legalLinks == settings.value.legalLinks
    ensures (settings.None? || settings.value.legalLinks.None?) ==> r.legalLinks == p.legalLinks
  {
    var name := p.orgName.GetOr(DefaultOrgName);
    if settings.None? then Resolved(name, p.orgLogoUrl, p.contactEmail, p.contactPhone, p.legalLinks)
    else
      var s := settings.value;
      Resolved(
        Coalesce(s.name, Some(name)).value,
        Coalesce(s.logoUrl, p.orgLogoUrl),
        Coalesce(s.contactEmail, p.contactEmail),
        Coalesce(s.contactPhone, p.contactPhone),
        Coalesce(s.legalLinks, p.legalLinks))
  }

  /** Without a provider the props are used as given. */
  lemma NoProviderKeepsProps(p: Props)
    ensures Resolve(None, p) == Resolved(p.orgName.GetOr(DefaultOrgName), p.orgLogoUrl, p.contactEmail, p.contactPhone, p.legalLinks)
  {
  }

  /** Settings that give every field decide the footer alone: the props no longer matter. */
  lemma FullSettingsIgnoreProps(s: OrgSettings, p: Props, q: Props)
    requires s.name.Some? && s.logoUrl.Some? && s.contactEmail.Some? && s.contactPhone.Some? && s.legalLinks.Some?
    ensures Resolve(Some(s), p) == Resolve(Some(s), q)
  {
  }

  /** An empty string is not nullish: an empty name setting still replaces the prop. */
  lemma EmptyNameSettingWins(s: OrgSettings, p: Props)
    requires s.name == Some("")
    ensures Resolve(Some(s), p).orgName == ""
  {
  }

  /** `w[0]`, which `join('')` renders as nothing when the word is empty. */
  function Initial(w: string): (r: string)
    ensures |r| <= 1
    ensures r != "" <==> w != ""
    ensures w != "" ==> r == [w[0]]
  {
    if w == "" then "" else [w[0]]
  }

  /** `.slice(0, n)` of a list. */
  function Take<T>(xs: seq<T>, n: nat): (r: seq<T>)
    ensures |r| == if |xs| <= n then |xs| else n
    ensures forall i :: 0 <= i < |r| ==> r[i] == xs[i]
  {
    if |xs| <= n then xs else xs[..n]
  }

  /** `parts.join('')` of at most two strings of at most one character each. */
  lemma ShortJoin(parts: seq<string>)
    requires |parts| <= 2 && forall i :: 0 <= i < |parts| ==> |parts[i]| <= 1
    ensures |Join(parts, "")| <= 2
  {
    if |parts| == 2 {
      assert parts[1..] == [parts[1]];
    }
  }

  /** `words.map(w => w[0])`. */
  function Firsts(words: seq<string>): (r: seq<string>)
    ensures |r| == |words|
    ensures forall i :: 0 <= i < |words| ==> r[i] == Initial(words[i])
  {
    seq(|words|, i requires 0 <= i < |words| => Initial(words[i]))
  }

  /** `.map(w => w[0]).slice(0, 2).join('').toUpperCase()` of the pieces. */
  function InitialsOfWords(words: seq<string>): (r: string)
    ensures |r| <= 2
  {
    var two := Take(Firsts(words), 2);
    ShortJoin(two);
    ToUpper(Join(two, ""))
  }

  /**
   * `(orgName || 'A').split(' ').map(w => w[0]).slice(0, 2).join('').toUpperCase()`:
   * the first characters of the first two space-separated pieces, upper-cased.
   */
  function Initials(orgName: string): (r: string)
    ensures |r| <= 2
  {
    InitialsOfWords(Split(if orgName == "" then "A" else orgName, ' '))
  }

  /** A single piece contributes its first character. */
  lemma InitialsOfOne(w: string)
    ensures InitialsOfWords([w]) == ToUpper(Initial(w))
  {
    assert Firsts([w]) == [Initial(w)];
  }

  /** Of two or more pieces only the first two contribute. */
  lemma InitialsOfMany(a: string, b: string, rest: seq<string>)
    ensures InitialsOfWords([a, b] + rest) == ToUpper(Initial(a) + Initial(b))
  {
    var two := Take(Firsts([a, b] + rest), 2);
    assert two == [Initial(a), Initial(b)];
    assert two[1..] == [Initial(b)];
    assert Join(two, "") == Initial(a) + "" + Initial(b);
    assert Initial(a) + "" + Initial(b) == Initial(a) + Initial(b);
  }

  /** An empty name counts as 'A'. */
  lemma InitialsEmpty()
    ensures Initials("") == "A"
  {
    SplitNoSeparator("A", ' ');
    InitialsOfOne("A");
    UpperKeeps("A");
  }

  /** Only the first two words count, however many follow. */
  lemma InitialsFirstTwoWords(a: string, b: string, rest: string)
    requires a != "" && b != "" && ' ' !in a && ' ' !in b
    ensures Initials(a + " " + b + " " + rest) == ToUpper([a[0], b[0]])
  {
    SplitTwoThenRest(a, b, rest);
    InitialsOfMany(a, b, Split(rest, ' '));
    assert [a[0], b[0]] == Initial(a) + Initial(b);
  }

  lemma SplitTwoThenRest(a: string, b: string, rest: string)
    requires ' ' !in a && ' ' !in b
    ensures Split(a + " " + b + " " + rest, ' ') == [a, b] + Split(rest, ' ')
  {
    SplitTwoCons(a, b, rest, ' ');
    assert a + " " + b + " " + rest == a + [' '] + b + [' '] + rest;
  }

  /** Two words: the first letter of each. */
  lemma InitialsTwoWords(a: string, b: string)
    requires a != "" && b != "" && ' ' !in a && ' ' !in b
    ensures Initials(a + " " + b) == ToUpper([a[0], b[0]])
  {
    var name := a + " " + b;
    assert name == a + [' '] + b;
    SplitCons(a, b, ' ');
    SplitNoSeparator(b, ' ');
    InitialsOfMany(a, b, []);
    assert [a, b] + [] == [a] + [b];
  }

  /**
   * A double space leaves an empty piece in the second slot, so the second
   * word never contributes: 'A  B' gives 'A'.
   */
  lemma InitialsDoubleSpace(a: string, b: string)
    requires a != "" && ' ' !in a && ' ' !in b
    ensures Initials(a + "  " + b) == ToUpper([a[0]])
  {
    var name := a + "  " + b;
    assert name == a + [' '] + ("" + [' '] + b);
    SplitCons(a, "" + [' '] + b, ' ');
    SplitCons("", b, ' ');
    SplitNoSeparator(b, ' ');
    InitialsOfMany(a, "", [b]);
    assert [a] + ([""] + [b]) == [a, ""] + [b];
    assert Initial(a) + Initial("") == [a[0]];
  }

  /** `legalLinks?.terms || '/terms'`. */
  function TermsHref(legal: Option<LegalLinks>): (href: string)
    ensures legal.Some? && legal.value.terms.Some? && legal.value.terms.value != "" ==> href == legal.value.terms.value
    ensures legal.None? || legal.value.terms.None? || legal.value.terms.value == "" ==> href == "/terms"
    ensures href != ""
  {
    OrElse(if legal.Some? then legal.value.terms else None, "/terms")
  }

  /** `legalLinks?.privacy || '/privacy'`. */
  function PrivacyHref(legal: Option<LegalLinks>): (href: string)
    ensures legal.Some? && legal.value.privacy.Some? && legal.value.privacy.value != "" ==> href == legal.value.privacy.value
    ensures legal.None? || legal.value.privacy.None? || legal.value.privacy.value == "" ==> href == "/privacy"
    ensures href != ""
  {
    OrElse(if legal.Some? then legal.value.privacy else None, "/privacy")
  }

  const DefaultPhoneHref := "tel:+15551234567"
  const DefaultPhoneText := "(555) 123-4567"
  const DefaultEmail := "info@accountingfirm.com"

  /** The phone link: the configured number, or the fixed default. */
  function PhoneHref(phone: Option<string>): (href: string)
    ensures phone.Some? && phone.value != "" ==> href == "tel:" + phone.value
    ensures phone.None? || phone.value == "" ==> href == DefaultPhoneHref
  {
    if phone.Some? && phone.value != "" then "tel:" + phone.value else DefaultPhoneHref
  }

  /** The email link, `mailto:` the configured address or the fixed default. */
  function EmailHref(email: Option<string>): (href: string)
    ensures email.Some? && email.value != "" ==> href == "mailto:" + email.value
    ensures email.None? || email.value == "" ==> href == "mailto:" + DefaultEmail
  {
    if email.Some? && email.value != "" then "mailto:" + email.value else "mailto:info@accountingfirm.com"
  }

  /** A configured phone number is both dialled and shown; the default shows a formatted number instead. */
  lemma PhoneLinkDialsShownNumber(phone: Option<string>)
    requires phone.Some? && phone.value != ""
    ensures PhoneHref(phone) == "tel:" + OrElse(phone, DefaultPhoneText)
  {
  }

  /** The email link always points at the address shown, default included. */
  lemma EmailLinkMatchesText(email: Option<string>)
    ensures EmailHref(email) == "mailto:" + OrElse(email, DefaultEmail)
  {
  }

  /** The logo box: the configured image, or the initials. */
  datatype Logo = Image(src: string, alt: string) | InitialsBadge(initials: string)

  datatype FooterView = FooterView(
    logo: Logo, orgName: string,
    phoneHref: string, phoneText: string, emailHref: string, emailText: string,
    privacyHref: string, termsHref: string)

  /** The footer as rendered from the provider's settings and the props. */
  function Render(settings: Option<OrgSettings>, p: Props): (v: FooterView)
    ensures var r := Resolve(settings, p);
      && v.orgName == r.orgName
      && (v.logo.Image? <==> r.orgLogoUrl.Some? && r.orgLogoUrl.value != "")
      && (v.logo.Image? ==> v.logo == Image(r.orgLogoUrl.value, r.orgName + " logo"))
      && (v.logo.InitialsBadge? ==> v.logo.initials == Initials(r.orgName))
      && v.phoneHref == PhoneHref(r.contactPhone) && v.phoneText == OrElse(r.contactPhone, DefaultPhoneText)
      && v.emailHref == EmailHref(r.contactEmail) && v.emailText == OrElse(r.contactEmail, DefaultEmail)
      && v.privacyHref == PrivacyHref(r.legalLinks) && v.termsHref == TermsHref(r.legalLinks)
  {
    var r := Resolve(settings, p);
    var logo := if r.orgLogoUrl.Some? && r.orgLogoUrl.value != "" then Image(r.orgLogoUrl.value, r.orgName + " logo")
      else InitialsBadge(Initials(r.orgName));
    FooterView(logo, r.orgName,
      PhoneHref(r.contactPhone), OrElse(r.contactPhone, DefaultPhoneText),
      EmailHref(r.contactEmail), OrElse(r.contactEmail, DefaultEmail),
      PrivacyHref(r.legalLinks), TermsHref(r.legalLinks))
  }

  /** With no provider and no props: the default name, its initials 'AF', and every default link. */
  lemma DefaultFooter(p: Props)
    requires p == Props(None, None, None, None, None)
    ensures Render(None, p) == FooterView(InitialsBadge(Initials(DefaultOrgName)), DefaultOrgName,
      DefaultPhoneHref, DefaultPhoneText, "mailto:" + DefaultEmail, DefaultEmail, "/privacy", "/terms")
    ensures Initials(DefaultOrgName) == "AF"
  {
    DefaultInitials(DefaultOrgName);
  }

  lemma DefaultInitials(name: string)
    requires name == "Accounting Firm"
    ensures Initials(name) == "AF"
  {
    assert name == "Accounting" + " " + "Firm";
    InitialsTwoWords("Accounting", "Firm");
    UpperKeeps(['A', 'F']);
  }
}
