/** The ProxyManager component's working copy and the handlers that change it
    in place: field edits, bypass-list edits and the save click. */
module ProxyManager {
  import opened Text
  import opened ProxyProfile

  class ProxyEditor {
    /** `profile[scheme]` for each of the four schemes. */
    var schemes: map<Scheme, SchemeConfig>
    /** `profile.bypassList`. */
    var bypassList: seq<string>

    ghost predicate Valid()
      reads this
    {
      forall s: Scheme :: s in schemes
    }

    /** The working copy as a value. */
    function Snapshot(): (p: Profile)
      reads this
      ensures Valid() ==> Complete(p)
    {
      Profile(schemes, bypassList)
    }

    /** `useState(cloneDeep(proxy))`: the editor starts from a copy of the
        caller's template, which it never changes afterwards. */
    constructor (template: Profile)
      requires Complete(template)
      ensures Valid() && Snapshot() == template
    {
      schemes := template.schemes;
      bypassList := template.bypassList;
    }

    /** `changeValue(scheme, prop, value)`. */
    method ChangeValue(s: Scheme, ch: Change)
      requires Valid()
      modifies this
      ensures Valid()
      ensures Snapshot() == ChangeProfile(old(Snapshot()), s, ch)
    {
      if schemes[s].useDefault && !ch.SetProtocol? {
        return;
      }
      if ch == SetUseDefault(true) {
        schemes := schemes[s := EmptyConfig(true)];
      }
      if ch.SetProtocol? {
        if ch.protocol == Direct {
          schemes := schemes[s := EmptyConfig(false)];
        } else {
          schemes := schemes[s := schemes[s].(useDefault := false)];
        }
      }
      var c := schemes[s];
      match ch {
        case SetUseDefault(flag) => c := c.(useDefault := flag);
        case SetProtocol(q) => c := c.(protocol := Some(q));
        case SetServer(x) => c := c.(server := Some(x));
        case SetPort(x) => c := c.(port := Some(x));
        case SetUser(x) => c := c.(user := Some(x));
        case SetPassword(x) => c := c.(password := Some(x));
      }
      assert c == Edited(old(schemes)[s], ch);
      schemes := schemes[s := c];
      assert schemes == old(schemes)[s := c];
    }

    /** `changeBypassList(e)`: the text area's content, one entry per line,
        every line kept as typed. */
    method ChangeBypassList(text: string)
      requires Valid()
      modifies this
      ensures Valid()
      ensures Snapshot() == ChangeBypass(old(Snapshot()), text)
      ensures BypassText(Snapshot()) == text
    {
      bypassList := Split(text, '\n');
    }

    /** `onSaveClicked()`: cleans the bypass list, collapses every inherited
        scheme in `AllSchemes` order, and returns the profile handed to
        `onSave`, which is the working copy itself. */
    method SaveClicked() returns (saved: Profile)
      requires Valid()
      modifies this
      ensures Valid()
      ensures saved == Snapshot() && saved == Saved(old(Snapshot()))
    {
      var cleaned := CleanBypassList(bypassList);
      bypassList := cleaned;
      var i := 0;
      while i < |AllSchemes|
        invariant 0 <= i <= |AllSchemes|
        invariant bypassList == cleaned
        invariant schemes == CollapsedBelow(old(schemes), i)
      {
        var s := AllSchemes[i];
        CollapseStep(old(schemes), schemes, i);
        if schemes[s].useDefault {
          schemes := schemes[s := InheritOnly];
        }
        // Otherwise the source trims the server and discards the result,
        // so the record is left as it is.
        i := i + 1;
      }
      CollapsedAll(old(Snapshot()));
      saved := Snapshot();
    }
  }

  /** The schemes after save's loop has visited the first `i` entries of
      `AllSchemes`. */
  function CollapsedBelow(m: map<Scheme, SchemeConfig>, i: nat): (r: map<Scheme, SchemeConfig>)
    ensures r.Keys == m.Keys
  {
    map t | t in m :: if SchemeIndex(t) < i then Collapse(m[t]) else m[t]
  }

  /** One turn of save's loop: the `i`-th scheme is collapsed when it
      inherits and left alone otherwise. */
  lemma CollapseStep(m: map<Scheme, SchemeConfig>, current: map<Scheme, SchemeConfig>, i: nat)
    requires i < |AllSchemes| && forall t: Scheme :: t in m
    requires current == CollapsedBelow(m, i)
    ensures var s := AllSchemes[i];
      && current[s] == m[s]
      && (m[s].useDefault ==> current[s := InheritOnly] == CollapsedBelow(m, i + 1))
      && (!m[s].useDefault ==> current == CollapsedBelow(m, i + 1))
  {
    SchemeIndexAt(i);
  }

  /** After all four turns every scheme is collapsed, as `Saved` says. */
  lemma CollapsedAll(p: Profile)
    requires Complete(p)
    ensures Profile(CollapsedBelow(p.schemes, |AllSchemes|), CleanBypassList(p.bypassList)) == Saved(p)
  {
  }
}
