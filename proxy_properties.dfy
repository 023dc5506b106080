/** What the ProxyManager form guarantees across operations: how edits show
    up in the projections, what save keeps and what it drops, and the round
    trip between the bypass text area and the bypass list. */
module ProxyProperties {
  import opened Text
  import opened ProxyProfile

  // ---------------------------------------------------------------------
  // Edits seen through the projections

  /** Choosing `(use default)` for a non-default scheme makes every text
      input of its row show exactly what `default`'s row shows, read-only,
      and the selector then shows `(use default)`. */
  lemma UseDefaultShowsDefault(p: Profile, s: Scheme, f: TextField)
    requires Complete(p) && s != Default
    ensures var q := ChangeProfile(p, s, SetUseDefault(true));
      && q.schemes[s].useDefault
      && DisplayValue(q, s, f) == DisplayValue(q, Default, f) == DisplayValue(p, Default, f)
      && IsTextFieldDisabled(q, s)
      && !HasServerError(q, s)
      && CanSeePasswordToggle(q, s) == CanSeePasswordToggle(p, Default)
      && SelectedOption(q, s) == UseDefaultChoice
  {
  }

  /** Choosing `direct` leaves an empty own record with protocol `direct`:
      its inputs are read-only and blank, it carries no server error and no
      password toggle. This holds for `default` too, whose selector offers
      `direct`. */
  lemma DirectClearsScheme(p: Profile, s: Scheme, f: TextField)
    requires Complete(p)
    ensures var q := ChangeProfile(p, s, SetProtocol(Direct));
      && q.schemes[s] == SchemeConfig(false, Some(Direct), Some(""), Some(BlankPort), Some(""), Some(""))
      && IsTextFieldDisabled(q, s)
      && !HasServerError(q, s)
      && !CanSeePasswordToggle(q, s)
      && DisplayValue(q, s, f) == ShownText("")
  {
  }

  /** Choosing a protocol other than `direct` makes the scheme its own,
      sets the protocol, and keeps server, port, user and password. */
  lemma ProtocolBreaksInheritance(p: Profile, s: Scheme, x: Protocol)
    requires Complete(p) && x != Direct
    ensures var (before, after) := (p.schemes[s], ChangeProfile(p, s, SetProtocol(x)).schemes[s]);
      && !after.useDefault && after.protocol == Some(x)
      && after.server == before.server && after.port == before.port
      && after.user == before.user && after.password == before.password
  {
  }

  /** Whatever option the user picks in a scheme's selector, the selector
      then shows that option. */
  lemma SelectorRoundTrip(p: Profile, s: Scheme, c: Choice)
    requires Complete(p) && c in SelectorOptions(s)
    ensures SelectedOption(ChangeProfile(p, s, OnSelect(c)), s) == c
  {
    var q := ChangeProfile(p, s, OnSelect(c));
    assert SelectorValue(q, s) == Some(c);
  }

  /** Typing into an enabled server input: the input shows what was typed,
      stays enabled, and is flagged exactly when the text is blank. */
  lemma TypedServerShown(p: Profile, s: Scheme, x: string)
    requires Complete(p) && !IsTextFieldDisabled(p, s)
    ensures var q := ChangeProfile(p, s, SetServer(x));
      && DisplayValue(q, s, ServerField) == ShownText(x)
      && !IsTextFieldDisabled(q, s)
      && (HasServerError(q, s) <==> IsBlank(x))
  {
  }

  /** Typing into an enabled port input: a positive number shows as itself,
      blank and zero show as ''. */
  lemma TypedPortShown(p: Profile, s: Scheme, x: Port)
    requires Complete(p) && !IsTextFieldDisabled(p, s)
    ensures var q := ChangeProfile(p, s, SetPort(x));
      DisplayValue(q, s, PortField)
        == if x.PortNumber? && x.number > 0 then ShownNumber(x.number) else ShownText("")
  {
  }

  /** Typing into an enabled user or password input shows what was typed. */
  lemma TypedCredentialsShown(p: Profile, s: Scheme, x: string)
    requires Complete(p) && !IsTextFieldDisabled(p, s)
    ensures DisplayValue(ChangeProfile(p, s, SetUser(x)), s, UserField) == ShownText(x)
    ensures DisplayValue(ChangeProfile(p, s, SetPassword(x)), s, PasswordField) == ShownText(x)
  {
  }

  /** The edits the form can issue never make `default` inherit: its
      selector has no `(use default)` option. */
  lemma FormEditsKeepDefaultOwn(p: Profile, s: Scheme, ch: Change)
    requires Complete(p) && !p.schemes[Default].useDefault
    requires s == Default ==> ch != SetUseDefault(true)
    ensures !ChangeProfile(p, s, ch).schemes[Default].useDefault
  {
  }

  // ---------------------------------------------------------------------
  // Bypass list

  /** Rendering the list into the text area and reading it back gives the
      same list, as long as it has an entry and no entry holds a line break. */
  lemma {:induction false} BypassTextStable(p: Profile)
    requires |p.bypassList| >= 1
    requires forall i :: 0 <= i < |p.bypassList| ==> '\n' !in p.bypassList[i]
    ensures ChangeBypass(p, BypassText(p)) == p
  {
    SplitJoin(p.bypassList, '\n');
  }

  /** Cleaning respects concatenation, so entries keep their order. */
  lemma {:induction false} CleanBypassListAppend(a: seq<string>, b: seq<string>)
    ensures CleanBypassList(a + b) == CleanBypassList(a) + CleanBypassList(b)
  {
    if a != [] {
      assert (a + b)[0] == a[0] && (a + b)[1..] == a[1..] + b;
      CleanBypassListAppend(a[1..], b);
    } else {
      assert a + b == b;
    }
  }

  /** A single entry is dropped when blank and trimmed otherwise. */
  lemma CleanBypassListOne(x: string)
    ensures CleanBypassList([x]) == if IsBlank(x) then [] else [Trim(x)]
  {
    assert [x][1..] == [];
  }

  /** Save keeps a clean entry as it is. */
  lemma CleanEntryKept(x: string)
    requires IsCleanEntry(x)
    ensures CleanEntry(x) == [x]
  {
    TrimUntouched(x);
    assert !IsBlank(x) by {
      assert !IsWhitespace(x[0]);
    }
  }

  /** A list whose entries are all clean is saved as it is. */
  lemma {:induction false} CleanBypassListFixed(list: seq<string>)
    requires forall i :: 0 <= i < |list| ==> IsCleanEntry(list[i])
    ensures CleanBypassList(list) == list
  {
    if list != [] {
      CleanEntryKept(list[0]);
      CleanBypassListFixed(list[1..]);
      assert [list[0]] + list[1..] == list;
    }
  }

  // ---------------------------------------------------------------------
  // Save

  /** Saving a saved profile changes nothing more. */
  lemma SaveIdempotent(p: Profile)
    requires Complete(p)
    ensures Saved(Saved(p)) == Saved(p)
  {
    var once := Saved(p);
    CleanBypassListFixed(once.bypassList);
    assert Saved(once).schemes == once.schemes;
  }

  /** Save keeps every server error and hence the Save button's state. */
  lemma SaveKeepsErrors(p: Profile, s: Scheme)
    requires Complete(p)
    ensures HasServerError(Saved(p), s) == HasServerError(p, s)
    ensures SaveDisabled(Saved(p)) == SaveDisabled(p)
  {
    forall t: Scheme
      ensures HasServerError(Saved(p), t) == HasServerError(p, t)
    {
    }
  }

  /** As long as `default` is its own, save changes nothing a row shows:
      values, enablement, password toggle and selector. */
  lemma SaveKeepsView(p: Profile, s: Scheme, f: TextField)
    requires Complete(p) && !p.schemes[Default].useDefault
    ensures var q := Saved(p);
      && DisplayValue(q, s, f) == DisplayValue(p, s, f)
      && IsTextFieldDisabled(q, s) == IsTextFieldDisabled(p, s)
      && CanSeePasswordToggle(q, s) == CanSeePasswordToggle(p, s)
      && SelectedOption(q, s) == SelectedOption(p, s)
  {
    var q := Saved(p);
    assert q.schemes[Default] == p.schemes[Default];
    assert Resolved(q, s) == Resolved(p, s);
    assert SelectorValue(q, s) == SelectorValue(p, s);
  }

  /** An inherited `default` loses its values on save: its row showed them
      before and shows blanks after. */
  lemma SaveBlanksInheritedDefault(p: Profile, f: TextField)
    requires Complete(p) && p.schemes[Default].useDefault
    ensures DisplayValue(Saved(p), Default, f) == ShownText("")
  {
  }
}
