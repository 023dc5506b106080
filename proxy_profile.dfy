/** The proxy profile that the ProxyManager form edits: one record per scheme
    plus a bypass list; what each edit and the save transform do to it as
    values; and the read-only projections the form renders from it (display
    values, enablement, the server error, the protocol selector). */
module ProxyProfile {
  import opened Text

  datatype Option<T> = None | Some(value: T)

  /** The four schemes, listed (and visited by save) in this order. */
  datatype Scheme = Default | Http | Https | Ftp

  const AllSchemes: seq<Scheme> := [Default, Http, Https, Ftp]

  /** Where a scheme sits in `AllSchemes`. */
  function SchemeIndex(s: Scheme): (i: nat)
    ensures i < |AllSchemes| && AllSchemes[i] == s
  {
    match s
    case Default => 0
    case Http => 1
    case Https => 2
    case Ftp => 3
  }

  /** `SchemeIndex` undoes indexing into `AllSchemes`. */
  lemma SchemeIndexAt(i: nat)
    requires i < |AllSchemes|
    ensures SchemeIndex(AllSchemes[i]) == i
  {
    if i == 0 {
    } else if i == 1 {
    } else if i == 2 {
    } else {
      assert i == 3;
    }
  }

  /** The protocols a scheme can be set to; `Direct` means "do not proxy". */
  datatype Protocol = Direct | ProxyHttp | ProxyHttps | Socks4 | Socks5

  /** A port as the numeric input hands it over: blank ('') or a non-negative
      integer. */
  datatype Port = BlankPort | PortNumber(number: nat)

  /** One scheme's record. A property the JavaScript object lacks is `None`;
      an absent `useDefault` flag reads as false, as every test of it does. */
  datatype SchemeConfig = SchemeConfig(
    useDefault: bool,
    protocol: Option<Protocol>,
    server: Option<string>,
    port: Option<Port>,
    user: Option<string>,
    password: Option<string>)

  /** `getEmptyProxySchemeConfig(useDefault)`: blank server, port, user and
      password, no protocol, and the given inheritance flag. */
  function EmptyConfig(useDefault: bool): (r: SchemeConfig)
    ensures r.useDefault == useDefault && r.protocol.None?
    ensures forall f: TextField :: FieldShown(r, f) == ShownText("")
  {
    SchemeConfig(useDefault, None, Some(""), Some(BlankPort), Some(""), Some(""))
  }

  /** The object literal `{useDefault: true}` that save leaves for an
      inherited scheme. */
  const InheritOnly: SchemeConfig := SchemeConfig(true, None, None, None, None, None)

  /** The working copy: a record per scheme and the bypass list (an absent
      list is the empty one). */
  datatype Profile = Profile(schemes: map<Scheme, SchemeConfig>, bypassList: seq<string>)

  /** Every scheme has a record; the form dereferences all four. */
  ghost predicate Complete(p: Profile) {
    forall s: Scheme :: s in p.schemes
  }

  /** `isNullOrWhiteSpaces`: absent, empty, or whitespace only. */
  predicate IsNullOrWhiteSpaces(s: Option<string>): (r: bool)
    ensures r <==> s.None? || Trim(s.value) == []
  {
    s.None? || IsBlank(s.value)
  }

  // ---------------------------------------------------------------------
  // Edits

  /** A call `changeValue(scheme, prop, value)`: the property and the value
      written to it. */
  datatype Change =
    | SetUseDefault(flag: bool)
    | SetProtocol(protocol: Protocol)
    | SetServer(server: string)
    | SetPort(port: Port)
    | SetUser(user: string)
    | SetPassword(password: string)

  /** What one `changeValue` leaves in the edited scheme's record. An inherited
      record ignores everything but a protocol choice; `useDefault = true`
      starts from an empty inherited record; `direct` starts from an empty
      own record; another protocol breaks inheritance; then the property is
      written. */
  function Edited(c: SchemeConfig, ch: Change): (r: SchemeConfig)
    ensures c.useDefault && !ch.SetProtocol? ==> r == c
    ensures ch.SetProtocol? ==> !r.useDefault && r.protocol == Some(ch.protocol)
    ensures ch == SetProtocol(Direct) ==> forall f: TextField :: FieldShown(r, f) == ShownText("")
    ensures ch.SetProtocol? && ch.protocol != Direct ==>
      r.server == c.server && r.port == c.port && r.user == c.user && r.password == c.password
    ensures !c.useDefault && ch.SetUseDefault? ==>
      r.useDefault == ch.flag && (ch.flag ==> r == EmptyConfig(true)) && (!ch.flag ==> r == c)
    ensures !c.useDefault && ch.SetServer? ==> r.server == Some(ch.server) && r.(server := c.server) == c
    ensures !c.useDefault && ch.SetPort? ==> r.port == Some(ch.port) && r.(port := c.port) == c
    ensures !c.useDefault && ch.SetUser? ==> r.user == Some(ch.user) && r.(user := c.user) == c
    ensures !c.useDefault && ch.SetPassword? ==> r.password == Some(ch.password) && r.(password := c.password) == c
  {
    if c.useDefault && !ch.SetProtocol? then c
    else
      match ch
      case SetUseDefault(flag) => if flag then EmptyConfig(true) else c.(useDefault := false)
      case SetProtocol(q) =>
        if q == Direct then EmptyConfig(false).(protocol := Some(Direct))
        else c.(useDefault := false, protocol := Some(q))
      case SetServer(x) => c.(server := Some(x))
      case SetPort(x) => c.(port := Some(x))
      case SetUser(x) => c.(user := Some(x))
      case SetPassword(x) => c.(password := Some(x))
  }

  /** The whole profile after `changeValue(s, …)`: only scheme `s` can change,
      and an inherited scheme changes only by a protocol choice. */
  function ChangeProfile(p: Profile, s: Scheme, ch: Change): (r: Profile)
    requires Complete(p)
    ensures Complete(r)
    ensures r.schemes[s] == Edited(p.schemes[s], ch)
    ensures forall t :: t in p.schemes && t != s ==> t in r.schemes && r.schemes[t] == p.schemes[t]
    ensures r.schemes.Keys == p.schemes.Keys && r.bypassList == p.bypassList
    ensures p.schemes[s].useDefault && !ch.SetProtocol? ==> r == p
  {
    var r := p.(schemes := p.schemes[s := Edited(p.schemes[s], ch)]);
    assert p.schemes[s].useDefault && !ch.SetProtocol? ==> r.schemes == p.schemes;
    r
  }

  /** The profile after the bypass text area changes to `text`. */
  function ChangeBypass(p: Profile, text: string): (r: Profile)
    ensures r.schemes == p.schemes
    ensures Join(r.bypassList, '\n') == text
  {
    JoinSplit(text, '\n');
    p.(bypassList := Split(text, '\n'))
  }

  /** What the bypass text area shows: the entries, one per line. */
  function BypassText(p: Profile): (r: string)
    ensures |p.bypassList| >= 1 && (forall i :: 0 <= i < |p.bypassList| ==> '\n' !in p.bypassList[i])
            ==> Split(r, '\n') == p.bypassList
  {
    if |p.bypassList| >= 1 && (forall i :: 0 <= i < |p.bypassList| ==> '\n' !in p.bypassList[i]) then
      SplitJoin(p.bypassList, '\n');
      Join(p.bypassList, '\n')
    else
      Join(p.bypassList, '\n')
  }

  // ---------------------------------------------------------------------
  // Save

  /** An entry as save leaves it: non-empty, with no whitespace at either
      end. */
  predicate IsCleanEntry(s: string) {
    s != [] && !IsWhitespace(s[0]) && !IsWhitespace(s[|s| - 1])
  }

  /** What save keeps of one entry: nothing when it trims to a blank string,
      the trimmed entry otherwise. */
  function CleanEntry(x: string): (r: seq<string>)
    ensures |r| <= 1
    ensures forall i :: 0 <= i < |r| ==> IsCleanEntry(r[i])
  {
    var t := Trim(x);
    if IsNullOrWhiteSpaces(Some(t)) then [] else [t]
  }

  /** The bypass list as save leaves it: each entry trimmed, and entries that
      are then blank dropped, in the original order. */
  function CleanBypassList(list: seq<string>): (r: seq<string>)
    ensures |r| <= |list|
    ensures forall i :: 0 <= i < |r| ==> IsCleanEntry(r[i])
  {
    if list == [] then [] else CleanEntry(list[0]) + CleanBypassList(list[1..])
  }

  /** One scheme's record as save leaves it. */
  function Collapse(c: SchemeConfig): (r: SchemeConfig)
    ensures r.useDefault == c.useDefault
    ensures r.useDefault ==> r.protocol.None? && r.server.None? && r.port.None? && r.user.None? && r.password.None?
    ensures !r.useDefault ==> r == c
  {
    if c.useDefault then InheritOnly else c
  }

  /** The profile handed to `onSave`: the bypass list cleaned, every inherited
      scheme (`default` included) reduced to `{useDefault: true}`, and every
      other record passed on as it is, its server untrimmed. */
  function Saved(p: Profile): (r: Profile)
    requires Complete(p)
    ensures Complete(r) && r.schemes.Keys == p.schemes.Keys
    ensures r.bypassList == CleanBypassList(p.bypassList)
    ensures forall s :: s in p.schemes && p.schemes[s].useDefault ==> r.schemes[s] == InheritOnly
    ensures forall s :: s in p.schemes && !p.schemes[s].useDefault ==> r.schemes[s] == p.schemes[s]
  {
    Profile(map s | s in p.schemes :: Collapse(p.schemes[s]), CleanBypassList(p.bypassList))
  }

  // ---------------------------------------------------------------------
  // Read-only projections

  /** The record whose values a scheme's row shows: `default`'s own for
      `default` and for an inherited scheme, the scheme's own otherwise. */
  function Resolved(p: Profile, s: Scheme): SchemeConfig
    requires Complete(p)
  {
    if s == Default || p.schemes[s].useDefault then p.schemes[Default] else p.schemes[s]
  }

  /** The four text inputs of a row. */
  datatype TextField = ServerField | PortField | UserField | PasswordField

  /** A value as a text input receives it: a string, or a port number. */
  datatype Shown = ShownText(text: string) | ShownNumber(number: nat)

  function OrEmpty(s: Option<string>): string {
    if s.Some? then s.value else ""
  }

  /** `record[prop] || ''`: a falsy value (absent, '', or port 0) shows as ''. */
  function FieldShown(c: SchemeConfig, f: TextField): (r: Shown)
    ensures r.ShownNumber? ==> f == PortField && r.number > 0
    ensures r == ShownText("") <==> match f
      case ServerField => OrEmpty(c.server) == ""
      case PortField => c.port.None? || c.port.value.BlankPort? || c.port.value.number == 0
      case UserField => OrEmpty(c.user) == ""
      case PasswordField => OrEmpty(c.password) == ""
  {
    match f
    case ServerField => ShownText(OrEmpty(c.server))
    case PortField =>
      if c.port.Some? && c.port.value.PortNumber? && c.port.value.number > 0
      then ShownNumber(c.port.value.number) else ShownText("")
    case UserField => ShownText(OrEmpty(c.user))
    case PasswordField => ShownText(OrEmpty(c.password))
  }

  /** `getDisplayValue(scheme, prop)`: the field of the record in effect for
      the row, with falsy values shown as ''. */
  function DisplayValue(p: Profile, s: Scheme, f: TextField): (r: Shown)
    requires Complete(p)
    ensures r == FieldShown(Resolved(p, s), f)
  {
    if s == Default then FieldShown(p.schemes[Default], f)
    else if p.schemes[s].useDefault then FieldShown(p.schemes[Default], f)
    else FieldShown(p.schemes[s], f)
  }

  /** `canSeePasswordToggle(scheme)`: shown unless the protocol in effect for
      the row is `direct`. */
  function CanSeePasswordToggle(p: Profile, s: Scheme): (r: bool)
    requires Complete(p)
    ensures r <==> Resolved(p, s).protocol != Some(Direct)
  {
    if p.schemes[s].useDefault then p.schemes[Default].protocol != Some(Direct)
    else p.schemes[s].protocol != Some(Direct)
  }

  /** `isTextFieldDisabled(scheme)`: an inherited or `direct` scheme's text
      inputs are read-only; an enabled row shows the scheme's own record. */
  function IsTextFieldDisabled(p: Profile, s: Scheme): (r: bool)
    requires Complete(p)
    ensures !r ==> Resolved(p, s) == p.schemes[s]
  {
    p.schemes[s].useDefault || p.schemes[s].protocol == Some(Direct)
  }

  /** The server input's error flag: an own, non-`direct` record with a blank
      server. The flagged input is always an enabled one. */
  function HasServerError(p: Profile, s: Scheme): (r: bool)
    requires Complete(p)
    ensures r ==> !IsTextFieldDisabled(p, s)
    ensures r ==> DisplayValue(p, s, ServerField) == ShownText(OrEmpty(p.schemes[s].server))
  {
    !p.schemes[s].useDefault
    && p.schemes[s].protocol != Some(Direct)
    && IsNullOrWhiteSpaces(p.schemes[s].server)
  }

  /** `list.some(hasServerError)`. */
  function AnyServerError(p: Profile, list: seq<Scheme>): (r: bool)
    requires Complete(p)
    ensures r <==> exists i :: 0 <= i < |list| && HasServerError(p, list[i])
  {
    if list == [] then false
    else HasServerError(p, list[0]) || AnyServerError(p, list[1..])
  }

  /** The Save button's `disabled` flag: some scheme, of all four, has a
      server error. */
  function SaveDisabled(p: Profile): (r: bool)
    requires Complete(p)
    ensures r <==> exists s :: HasServerError(p, s)
  {
    var r := AnyServerError(p, AllSchemes);
    assert forall s :: HasServerError(p, s) ==> AllSchemes[SchemeIndex(s)] == s;
    r
  }

  // ---------------------------------------------------------------------
  // Protocol selector

  /** An option of the protocol selector. */
  datatype Choice = UseDefaultChoice | ProtocolChoice(protocol: Protocol)

  /** All options, `(use default)` first. */
  const ProtocolOptions: seq<Choice> := [
    UseDefaultChoice, ProtocolChoice(Direct), ProtocolChoice(ProxyHttp),
    ProtocolChoice(ProxyHttps), ProtocolChoice(Socks4), ProtocolChoice(Socks5)]

  /** Where a protocol's option sits in `ProtocolOptions` (after
      `(use default)`). */
  function OptionIndex(q: Protocol): (i: nat)
    ensures 1 <= i < |ProtocolOptions| && ProtocolOptions[i] == ProtocolChoice(q)
  {
    match q
    case Direct => 1
    case ProxyHttp => 2
    case ProxyHttps => 3
    case Socks4 => 4
    case Socks5 => 5
  }

  /** The options a scheme's selector offers: `default` loses only
      `(use default)`, so `direct` stays available to it. */
  function SelectorOptions(s: Scheme): (r: seq<Choice>)
    ensures |r| > 0
    ensures forall q: Protocol :: ProtocolChoice(q) in r
    ensures UseDefaultChoice in r <==> s != Default
  {
    assert forall q: Protocol :: ProtocolOptions[OptionIndex(q)] == ProtocolChoice(q);
    if s != Default then ProtocolOptions else ProtocolOptions[1..]
  }

  /** The value the selector is asked to show: `default` for an inherited
      scheme, its protocol otherwise (absent when the record has none). */
  function SelectorValue(p: Profile, s: Scheme): (r: Option<Choice>)
    requires Complete(p)
    ensures r == Some(UseDefaultChoice) <==> p.schemes[s].useDefault
    ensures forall q: Protocol :: r == Some(ProtocolChoice(q)) <==>
      !p.schemes[s].useDefault && p.schemes[s].protocol == Some(q)
    ensures r.None? <==> !p.schemes[s].useDefault && p.schemes[s].protocol.None?
  {
    if p.schemes[s].useDefault then Some(UseDefaultChoice)
    else if p.schemes[s].protocol.Some? then Some(ProtocolChoice(p.schemes[s].protocol.value))
    else None
  }

  /** `opts.find(x => x.value === value)`. */
  function Find(opts: seq<Choice>, v: Option<Choice>): (r: Option<Choice>)
    ensures r.Some? <==> v.Some? && v.value in opts
    ensures r.Some? ==> r == v
  {
    if opts == [] then None
    else if v == Some(opts[0]) then v
    else Find(opts[1..], v)
  }

  /** The option the selector displays: the one matching its value, or the
      first option when none matches. */
  function SelectedOption(p: Profile, s: Scheme): (r: Choice)
    requires Complete(p)
    ensures r in SelectorOptions(s)
    ensures SelectorValue(p, s).Some? && SelectorValue(p, s).value in SelectorOptions(s)
            ==> r == SelectorValue(p, s).value
    ensures !(SelectorValue(p, s).Some? && SelectorValue(p, s).value in SelectorOptions(s))
            ==> r == SelectorOptions(s)[0]
  {
    var opts := SelectorOptions(s);
    var found := Find(opts, SelectorValue(p, s));
    if found.Some? then found.value else opts[0]
  }

  /** The selector's `onChange`: `(use default)` sets `useDefault`, any other
      option sets the protocol. */
  function OnSelect(c: Choice): (r: Change)
    ensures forall cfg: SchemeConfig :: Edited(cfg, r).useDefault == c.UseDefaultChoice?
    ensures c.ProtocolChoice? ==> forall cfg: SchemeConfig :: Edited(cfg, r).protocol == Some(c.protocol)
  {
    match c
    case UseDefaultChoice => SetUseDefault(true)
    case ProtocolChoice(q) => SetProtocol(q)
  }
}
