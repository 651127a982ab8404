/**
 * The follow graph of the editor widget: every editor keeps an ordered list
 * of the editors that follow it, a document handle that following copies,
 * a single shared-reference slot, and two sub-managers ("panels" and
 * "features") that setting the shared reference points at the other
 * editor's managers.
 *
 * Editors and managers are objects whose fields are updated in place, so
 * aliasing between them (an editor following itself, two editors sharing a
 * manager) behaves as in the widget.
 */
module Editors {
  import opened Wrappers

  /** The editor's document handle (`chelly_document`), copied by reference and opaque here. */
  datatype Document = Document(id: nat)

  /** The two manager classes. */
  datatype Kind = PanelsKind | FeaturesKind

  /** The exceptions the core raises. */
  datatype Error = AttributeError | PanelValueError | FeatureValueError

  /**
   * A panels or features manager. Only what the follow graph uses is
   * modelled: the editor it was built for, its class, its own shared
   * reference, and whether assigning that reference raises AttributeError.
   */
  class Manager {
    var owner: Editor?
    const kind: Kind
    const rejects: bool
    var sharedRef: Option<Manager>

    constructor (owner: Editor?, kind: Kind, rejects: bool)
      ensures this.owner == owner && this.kind == kind && this.rejects == rejects
      ensures sharedRef == None
    {
      this.owner := owner;
      this.kind := kind;
      this.rejects := rejects;
      sharedRef := None;
    }
  }

  /**
   * The shared-reference attribute: not yet created (reading it raises
   * AttributeError), or holding an editor or `None`.
   */
  datatype Slot = Unset | Held(ref: Option<Editor>)

  /**
   * What can be assigned to `panels` or `features`: a manager class itself,
   * a manager instance, or any other value.
   */
  datatype ManagerArg = ManagerClass(kind: Kind) | ManagerInstance(manager: Manager) | OtherValue

  /**
   * Removes the first occurrence of `x` from `s` (`list.remove`). Python's
   * `list.remove` raises ValueError when `x` is absent; `unfollow` checks
   * membership before each removal, so it never reaches that case, and here
   * an absent `x` leaves `s` as it is.
   */
  function RemoveFirst<T(==)>(s: seq<T>, x: T): (r: seq<T>)
    ensures x !in s ==> r == s
    ensures x in s ==> |r| == |s| - 1
    ensures multiset(r) == multiset(s) - multiset{x}
  {
    if s == [] then []
    else
      assert s == [s[0]] + s[1..];
      if s[0] == x then s[1..]
      else [s[0]] + RemoveFirst(s[1..], x)
  }

  /**
   * When `s[i]` is the first occurrence of `x`, `RemoveFirst` cuts out
   * exactly that element and keeps the others in order.
   */
  lemma {:induction false} RemoveFirstCutsFirstOccurrence<T>(s: seq<T>, x: T, i: nat)
    requires i < |s| && s[i] == x && x !in s[..i]
    ensures RemoveFirst(s, x) == s[..i] + s[i + 1..]
  {
    if i > 0 {
      assert s[0] in s[..i];
      RemoveFirstCutsFirstOccurrence(s[1..], x, i - 1);
      assert s[..i] == [s[0]] + s[1..][..i - 1];
      assert s[i + 1..] == s[1..][i..];
    }
  }

  /**
   * Removing `x` right after appending it: when `x` was absent the list is
   * back as it was; when `x` was already present, the earlier copy is the
   * one removed and the appended copy stays at the end.
   */
  lemma {:induction false} RemoveFirstAfterAppend<T>(s: seq<T>, x: T)
    ensures RemoveFirst(s + [x], x) == if x in s then RemoveFirst(s, x) + [x] else s
  {
    if s == [] {
      assert [] + [x] == [x];
    } else if s[0] == x {
      assert (s + [x])[1..] == s[1..] + [x];
    } else {
      var h, t := s[0], s[1..];
      assert s + [x] == [h] + (t + [x]) by { assert s == [h] + t; }
      assert RemoveFirst(s + [x], x) == [h] + RemoveFirst(t + [x], x) by {
        assert (s + [x])[0] == h && (s + [x])[1..] == t + [x];
      }
      RemoveFirstAfterAppend(t, x);
      if x in t {
        assert RemoveFirst(s, x) == [h] + RemoveFirst(t, x);
        assert [h] + (RemoveFirst(t, x) + [x]) == ([h] + RemoveFirst(t, x)) + [x];
      } else {
        assert x !in s by { assert s == [h] + t; }
        assert [h] + t == s;
      }
    }
  }

  class Editor {
    var followers: seq<Editor>
    var doc: Option<Document>
    var sharedRef: Slot
    var panels: Manager
    var features: Manager

    /** The `panels` attribute holds a panels manager and `features` a features manager. */
    ghost predicate Valid()
      reads this
    {
      panels.kind == PanelsKind && features.kind == FeaturesKind
    }

    /**
     * A new editor: no followers, two managers built for it, and a
     * shared-reference attribute that does not exist yet. The document
     * attribute is assigned outside this class; `None` means it does not
     * exist (yet).
     */
    constructor (doc: Option<Document>)
      ensures Valid()
      ensures followers == [] && this.doc == doc && sharedRef == Unset
      ensures SharedReference() == Err(AttributeError)
      ensures fresh(panels) && panels.owner == this && !panels.rejects && panels.sharedRef == None
      ensures fresh(features) && features.owner == this && !features.rejects && features.sharedRef == None
    {
      panels := new Manager(null, PanelsKind, false);
      features := new Manager(null, FeaturesKind, false);
      followers := [];
      sharedRef := Unset;
      this.doc := doc;
      new;
      panels.owner := this;
      features.owner := this;
    }

    /**
     * `hasattr`/`getattr` as the shared-reference setter uses them: for the
     * two keys that `shareables` yields, the attribute exists and holds the
     * manager of that kind. The editor has other attributes too, but no
     * other name is ever passed here, so other names are modelled as absent.
     */
    function Attr(key: string): (r: Option<Manager>)
      reads this
      ensures r.Some? <==> key == "panels" || key == "features"
      ensures Valid() && r.Some? ==> (r.value.kind == PanelsKind <==> key == "panels")
    {
      if key == "panels" then Some(panels)
      else if key == "features" then Some(features)
      else None
    }

    /**
     * The shareable managers, in order: every key names an attribute of the
     * editor that holds the manager listed with it, and no key repeats.
     */
    function Shareables(): (s: seq<(string, Manager)>)
      reads this
      ensures forall i :: 0 <= i < |s| ==> Attr(s[i].0) == Some(s[i].1)
      ensures forall i, j :: 0 <= i < j < |s| ==> s[i].0 != s[j].0
      ensures |s| == 2 && s[0].0 == "panels" && s[1].0 == "features"
    {
      [("panels", panels), ("features", features)]
    }

    /** This editor is listed in `other`'s followers at least once. */
    function Following(other: Editor): (b: bool)
      reads other
      ensures b <==> multiset(other.followers)[this] > 0
    {
      this in other.followers
    }

    /**
     * `followed` is defined as `bool(followers)`: the list is not empty,
     * that is, it lists at least one editor (each of which is then
     * `following` this one). The link to every editor, listed or not, is
     * `FollowedIffSomeoneFollows`.
     */
    function Followed(): (b: bool)
      reads this
      ensures b <==> exists i :: 0 <= i < |followers| && followers[i].Following(this)
    {
      assert followers != [] ==> followers[0].Following(this);
      |followers| > 0
    }

    /**
     * Reading `shared_reference`: AttributeError exactly while the attribute
     * has never been assigned or deleted, otherwise the stored value.
     */
    function SharedReference(): (r: Result<Option<Editor>, Error>)
      reads this
      ensures r.Err? <==> sharedRef == Unset
      ensures r.Err? ==> r.error == AttributeError
    {
      match sharedRef
      case Unset => Err(AttributeError)
      case Held(ref) => Ok(ref)
    }

    /**
     * `follow(other, follow_back)`: append this editor to `other`'s
     * followers (a second call appends a second copy), take `other`'s
     * document, and when `followBack` also append `other` to this editor's
     * followers. When `other` has no document, reading it raises
     * AttributeError after the append: the append stays, this editor's
     * document is unchanged and the follow-back is skipped.
     */
    method Follow(other: Editor, followBack: bool) returns (r: Outcome<Error>)
      modifies this`followers, this`doc, other`followers
      ensures r == if old(other.doc).Some? then Pass else Fail(AttributeError)
      ensures doc == if r.Pass? then old(other.doc) else old(doc)
      ensures Following(other)
      ensures this != other ==> other.followers == old(other.followers) + [this]
      ensures this != other ==>
                followers == if followBack && r.Pass? then old(followers) + [other] else old(followers)
      ensures this == other ==>
                followers == old(followers) + if followBack && r.Pass? then [this, this] else [this]
    {
      other.followers := other.followers + [this];
      if other.doc.None? {
        return Fail(AttributeError);
      }
      doc := other.doc;
      r := Pass;
      if followBack {
        followers := followers + [other];
      }
    }

    /**
     * `unfollow(other, unfollow_back)`: remove the first occurrence of this
     * editor from `other`'s followers if it is there; when `unfollowBack`,
     * then also remove the first occurrence of `other` from this editor's
     * followers if it is there. Absent entries are not an error.
     */
    method Unfollow(other: Editor, unfollowBack: bool)
      modifies this`followers, other`followers
      ensures this != other ==> other.followers == RemoveFirst(old(other.followers), this)
      ensures this != other ==> followers == if unfollowBack then RemoveFirst(old(followers), other) else old(followers)
      ensures this == other ==>
                followers == if unfollowBack then RemoveFirst(RemoveFirst(old(followers), this), this)
                             else RemoveFirst(old(followers), this)
      ensures this != other ==> (Following(other) <==> multiset(old(other.followers))[this] >= 2)
    {
      if Following(other) {
        other.followers := RemoveFirst(other.followers, this);
      }
      if unfollowBack {
        if other.Following(this) {
          followers := RemoveFirst(followers, other);
        }
      }
    }

    /**
     * Assigning `shared_reference = other`: store `other`, then for each
     * shareable key of `other` that names an attribute of this editor, set
     * that manager's shared reference to `other`'s manager. A manager that
     * raises AttributeError keeps its old reference, and the remaining keys
     * are still propagated.
     */
    method SetSharedReference(other: Editor)
      requires Valid()
      modifies this`sharedRef, panels`sharedRef, features`sharedRef
      ensures sharedRef == Held(Some(other))
      ensures SharedReference() == Ok(Some(other))
      ensures panels.sharedRef == if panels.rejects then old(panels.sharedRef) else Some(other.panels)
      ensures features.sharedRef == if features.rejects then old(features.sharedRef) else Some(other.features)
    {
      sharedRef := Held(Some(other));
      var items := other.Shareables();
      var i := 0;
      while i < |items|
        invariant 0 <= i <= |items|
        invariant items == [("panels", other.panels), ("features", other.features)]
        invariant panels.sharedRef == if i < 1 || panels.rejects then old(panels.sharedRef) else Some(other.panels)
        invariant features.sharedRef == if i < 2 || features.rejects then old(features.sharedRef) else Some(other.features)
        invariant sharedRef == Held(Some(other))
      {
        var (key, source) := items[i];
        var target := Attr(key);
        if target.Some? {
          if target.value.rejects {
            // AttributeError: reported and skipped; the loop goes on.
          } else {
            target.value.sharedRef := Some(source);
          }
        }
        i := i + 1;
      }
    }

    /** Deleting `shared_reference`: the slot holds `None`; no manager is touched. */
    method DeleteSharedReference()
      modifies this`sharedRef
      ensures sharedRef == Held(None)
      ensures SharedReference() == Ok(None)
      ensures panels.sharedRef == old(panels.sharedRef) && features.sharedRef == old(features.sharedRef)
    {
      sharedRef := Held(None);
    }

    /**
     * Assigning `panels`: the panels manager class gives a new manager built
     * for this editor, a panels manager instance is stored as it is, and
     * anything else raises PanelValueError and leaves `panels` unchanged.
     */
    method SetPanels(arg: ManagerArg) returns (r: Outcome<Error>)
      requires Valid()
      modifies this`panels
      ensures Valid()
      ensures arg == ManagerClass(PanelsKind) ==>
        r == Pass && fresh(panels) && panels.owner == this && !panels.rejects && panels.sharedRef == None
      ensures arg.ManagerInstance? && arg.manager.kind == PanelsKind ==> r == Pass && panels == arg.manager
      ensures arg != ManagerClass(PanelsKind) && !(arg.ManagerInstance? && arg.manager.kind == PanelsKind) ==>
        r == Fail(PanelValueError) && panels == old(panels)
    {
      if arg == ManagerClass(PanelsKind) {
        panels := new Manager(this, PanelsKind, false);
        r := Pass;
      } else if arg.ManagerInstance? && arg.manager.kind == PanelsKind {
        panels := arg.manager;
        r := Pass;
      } else {
        r := Fail(PanelValueError);
      }
    }

    /**
     * Assigning `features`: the features manager class gives a new manager
     * built for this editor, a features manager instance is stored as it
     * is, and anything else raises FeatureValueError and leaves `features`
     * unchanged.
     */
    method SetFeatures(arg: ManagerArg) returns (r: Outcome<Error>)
      requires Valid()
      modifies this`features
      ensures Valid()
      ensures arg == ManagerClass(FeaturesKind) ==>
        r == Pass && fresh(features) && features.owner == this && !features.rejects && features.sharedRef == None
      ensures arg.ManagerInstance? && arg.manager.kind == FeaturesKind ==> r == Pass && features == arg.manager
      ensures arg != ManagerClass(FeaturesKind) && !(arg.ManagerInstance? && arg.manager.kind == FeaturesKind) ==>
        r == Fail(FeatureValueError) && features == old(features)
    {
      if arg == ManagerClass(FeaturesKind) {
        features := new Manager(this, FeaturesKind, false);
        r := Pass;
      } else if arg.ManagerInstance? && arg.manager.kind == FeaturesKind {
        features := arg.manager;
        r := Pass;
      } else {
        r := Fail(FeatureValueError);
      }
    }
  }

  /** An editor is followed exactly when some editor, listed or not, is following it. */
  lemma FollowedIffSomeoneFollows(e: Editor)
    ensures e.Followed() <==> exists f: Editor :: f.Following(e)
  {
    if e.Followed() {
      assert e.followers[0].Following(e);
    }
  }

  /** Removing the first copy of `x` leaves `x` in the list exactly when it occurred at least twice. */
  lemma RemoveFirstKeepsDuplicate<T>(s: seq<T>, x: T)
    ensures x in RemoveFirst(s, x) <==> multiset(s)[x] >= 2
  {
    assert x in RemoveFirst(s, x) <==> multiset(RemoveFirst(s, x))[x] > 0;
  }

  /**
   * Following and then unfollowing an editor that was not yet following
   * restores the followed editor's list, and the relation no longer holds.
   * This holds even when `follow` raised because `b` has no document: its
   * append had already happened.
   */
  method FollowThenUnfollow(a: Editor, b: Editor, followBack: bool)
    requires a != b && a !in b.followers
    modifies a, b
    ensures b.followers == old(b.followers) && !a.Following(b)
    ensures a.doc == if old(b.doc).Some? then old(b.doc) else old(a.doc)
  {
    var _ := a.Follow(b, followBack);
    RemoveFirstAfterAppend(old(b.followers), a);
    a.Unfollow(b, false);
  }
}
