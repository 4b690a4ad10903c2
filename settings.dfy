/**
 * The per-site enable switches: how the content script decides which switch
 * applies to the page it runs on, how it reads a stored switch, and how the
 * popup loads and saves the same switches.
 *
 * A stored switch counts as on unless it is literally `false` (`!== false`),
 * so a key that was never written means enabled.
 */
module Settings {

  /** The value extension storage yields for one key. */
  datatype Stored = Missing | Bool(b: bool) | NonBoolean

  /** `value !== false` */
  predicate SwitchOn(v: Stored)
  {
    v != Bool(false)
  }

  /** The settings record `{ enableThreads, enableInstagram }`. */
  datatype SiteSettings = SiteSettings(enableThreads: Stored, enableInstagram: Stored)

  /** Whether `sub` occurs in `s` starting at index i. */
  predicate OccursAt(s: string, sub: string, i: nat)
  {
    i + |sub| <= |s| && forall k :: 0 <= k < |sub| ==> s[i + k] == sub[k]
  }

  /** `s.includes(sub)` */
  function Includes(s: string, sub: string): (r: bool)
    ensures r <==> exists i: nat :: OccursAt(s, sub, i)
    decreases |s|
  {
    if |s| < |sub| then
      false
    else if OccursAt(s, sub, 0) then
      true
    else
      ShiftOccurrence(s, sub);
      Includes(s[1..], sub)
  }

  /** Dropping the first character shifts every occurrence one place to the left. */
  lemma ShiftOccurrence(s: string, sub: string)
    requires |s| > 0 && !OccursAt(s, sub, 0)
    ensures (exists i: nat :: OccursAt(s, sub, i)) <==> exists i: nat :: OccursAt(s[1..], sub, i)
  {
    if exists i: nat :: OccursAt(s, sub, i) {
      var i: nat :| OccursAt(s, sub, i);
      assert i != 0;
      assert OccursAt(s[1..], sub, i - 1) by {
        forall k | 0 <= k < |sub| ensures s[1..][i - 1 + k] == sub[k] {
          assert s[i + k] == sub[k];
        }
      }
    }
    if exists i: nat :: OccursAt(s[1..], sub, i) {
      var i: nat :| OccursAt(s[1..], sub, i);
      assert OccursAt(s, sub, i + 1) by {
        forall k | 0 <= k < |sub| ensures s[i + 1 + k] == sub[k] {
          assert s[1..][i + k] == sub[k];
        }
      }
    }
  }

  /** Which site the page belongs to, from its host name. Both flags may hold at once. */
  datatype Profile = Profile(isInstagram: bool, isThreads: bool)

  function ProfileOf(hostname: string): (p: Profile)
    ensures p.isInstagram <==> exists i: nat :: OccursAt(hostname, "instagram.com", i)
    ensures p.isThreads <==> exists i: nat :: OccursAt(hostname, "threads", i)
  {
    Profile(Includes(hostname, "instagram.com"), Includes(hostname, "threads"))
  }

  /** `checkConfig`: the Instagram switch wins on an Instagram host; other hosts keep the current value. */
  function ConfiguredEnabled(p: Profile, current: bool, s: SiteSettings): (on: bool)
    ensures p.isInstagram ==> (on <==> s.enableInstagram != Bool(false))
    ensures !p.isInstagram && p.isThreads ==> (on <==> s.enableThreads != Bool(false))
    ensures !p.isInstagram && !p.isThreads ==> on == current
  {
    if p.isInstagram then SwitchOn(s.enableInstagram)
    else if p.isThreads then SwitchOn(s.enableThreads)
    else current
  }

  /** A site with no stored switch is enabled. */
  lemma MissingMeansEnabled(p: Profile, current: bool)
    requires p.isInstagram || p.isThreads
    ensures ConfiguredEnabled(p, current, SiteSettings(Missing, Missing))
  {
  }

  /** The two checkboxes of the popup. */
  datatype Toggles = Toggles(threads: bool, instagram: bool)

  /** The popup's load: each checkbox shows `value !== false`. */
  function PopupLoad(items: SiteSettings): (t: Toggles)
    ensures t.threads <==> items.enableThreads != Bool(false)
    ensures t.instagram <==> items.enableInstagram != Bool(false)
  {
    Toggles(SwitchOn(items.enableThreads), SwitchOn(items.enableInstagram))
  }

  /** The popup's save: both checkbox states, as booleans. */
  function PopupSave(t: Toggles): (s: SiteSettings)
    ensures s.enableThreads.Bool? && s.enableInstagram.Bool?
  {
    SiteSettings(Bool(t.threads), Bool(t.instagram))
  }

  /** What the popup saves it loads back unchanged. */
  lemma PopupRoundTrip(t: Toggles)
    ensures PopupLoad(PopupSave(t)) == t
  {
  }

  /** The content script and the popup read a stored record the same way. */
  lemma PopupAgreesWithContentScript(p: Profile, current: bool, items: SiteSettings)
    ensures p.isInstagram ==> ConfiguredEnabled(p, current, items) == PopupLoad(items).instagram
    ensures !p.isInstagram && p.isThreads ==> ConfiguredEnabled(p, current, items) == PopupLoad(items).threads
  {
  }

  /** After the popup saves, a page on a supported site is enabled exactly when its checkbox is ticked. */
  lemma SavedToggleGovernsPage(p: Profile, current: bool, t: Toggles)
    ensures p.isInstagram ==> ConfiguredEnabled(p, current, PopupSave(t)) == t.instagram
    ensures !p.isInstagram && p.isThreads ==> ConfiguredEnabled(p, current, PopupSave(t)) == t.threads
  {
  }

  /** The host names of the two sites raise the expected flag. */
  lemma KnownHosts()
    ensures ProfileOf("www.instagram.com").isInstagram
    ensures ProfileOf("www.threads.net").isThreads
  {
    assert OccursAt("www.instagram.com", "instagram.com", 4);
    assert OccursAt("www.threads.net", "threads", 4);
  }
}
