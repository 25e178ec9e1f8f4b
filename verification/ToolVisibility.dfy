/** Which tools a run may use and which it sees (`agentRuntime`): layered
    resolution of the enabled, pinned and revealed sets, reveals during the run,
    and re-resolution from the stored state. */
module ToolVisibility {
  import opened Common

  datatype Defaults = Defaults(enabled: bool, pinned: bool)

  datatype ToolConfig = ToolConfig(
    defaultEnabled: seq<string>,
    defaultDisabled: seq<string>,
    defaultPinned: seq<string>)

  /** The stored lists; None where the trace has no list. */
  datatype StoredTools = StoredTools(
    enabled: Option<seq<string>>,
    pinned: Option<seq<string>>,
    revealed: Option<seq<string>>)

  datatype Selection = Selection(
    enabled: Option<seq<string>>,
    pinned: Option<seq<string>>,
    enable: seq<string>,
    disable: seq<string>,
    pin: seq<string>,
    unpin: seq<string>)

  datatype ToolState = ToolState(enabled: set<string>, pinned: set<string>, revealed: set<string>)

  type Catalog = map<string, Defaults>

  const SEARCH := "search_tools"
  const PLAN_PINNED := ["view", "write", "edit", "multiedit", "plan_exit"]
  const NO_SELECTION := Selection(None, None, [], [], [], [])

  /** The trimmed ids of a list that the catalog knows. */
  function Known(catalog: Catalog, ids: seq<string>): set<string> {
    set id | id in ids && TrimSpace(id) != "" && TrimSpace(id) in catalog :: TrimSpace(id)
  }

  function Trims(ids: seq<string>): set<string> {
    set id | id in ids :: TrimSpace(id)
  }

  function Elements(ids: seq<string>): set<string> {
    set id | id in ids
  }

  /** The ids of a list that are in a set, in the order of the list. */
  function Filter(ids: seq<string>, keep: set<string>): seq<string> {
    if ids == [] then []
    else
      var before, last := Filter(ids[..|ids| - 1], keep), ids[|ids| - 1];
      if last in keep then before + [last] else before
  }

  /** The positions of a list that are kept, in order and all of them. */
  ghost predicate Keeps(ids: seq<string>, keep: set<string>, positions: seq<nat>) {
    && (forall i :: 0 <= i < |positions| ==> positions[i] < |ids| && ids[positions[i]] in keep)
    && (forall i, j :: 0 <= i < j < |positions| ==> positions[i] < positions[j])
    && (forall k: nat :: k < |ids| && ids[k] in keep ==> k in positions)
  }

  /** Filtering lists what is kept in the order it had. */
  lemma {:induction false} FilterExactly(ids: seq<string>, keep: set<string>) returns (positions: seq<nat>)
    ensures Keeps(ids, keep, positions)
    ensures |Filter(ids, keep)| == |positions|
    ensures forall i :: 0 <= i < |positions| ==> Filter(ids, keep)[i] == ids[positions[i]]
  {
    if ids == [] {
      positions := [];
    } else {
      var n := |ids| - 1;
      var before := FilterExactly(ids[..n], keep);
      positions := if ids[n] in keep then before + [n] else before;
      KeepsMore(ids, keep, before);
    }
  }

  lemma {:induction false} KeepsMore(ids: seq<string>, keep: set<string>, before: seq<nat>)
    requires ids != [] && Keeps(ids[..|ids| - 1], keep, before)
    ensures var n := |ids| - 1; Keeps(ids, keep, if ids[n] in keep then before + [n] else before)
  {
    var n := |ids| - 1;
    forall k: nat | k < n && ids[k] in keep ensures k in before {
      assert ids[..n][k] == ids[k];
    }
    assert n in before + [n];
  }

  lemma ElementsAppend(ids: seq<string>, id: string)
    ensures Elements(ids + [id]) == Elements(ids) + {id}
  {
  }

  predicate Hidden(s: ToolState, id: string) {
    id in s.enabled && id != SEARCH && id !in s.pinned && id !in s.revealed
  }

  predicate HasHidden(s: ToolState) {
    exists id :: id in s.enabled && Hidden(s, id)
  }

  function DefaultEnabled(catalog: Catalog, cfg: ToolConfig): set<string> {
    (set id | id in catalog && catalog[id].enabled) + Elements(cfg.defaultEnabled) * catalog.Keys
      - Elements(cfg.defaultDisabled)
  }

  function DefaultPinned(catalog: Catalog, cfg: ToolConfig): set<string> {
    (set id | id in catalog && catalog[id].pinned) - Elements(cfg.defaultDisabled)
      + Elements(cfg.defaultPinned) * catalog.Keys
  }

  /** A listed value replaces the one below it. */
  function Layer(catalog: Catalog, below: set<string>, list: Option<seq<string>>): set<string> {
    if list.Some? then Known(catalog, list.value) else below
  }

  function Layers(catalog: Catalog, planMode: bool, defaults: set<string>, stored: Option<seq<string>>,
                  selected: Option<seq<string>>, add: seq<string>, remove: seq<string>): set<string> {
    Layer(catalog, Layer(catalog, defaults, stored), selected) + Known(catalog, add) - Trims(remove)
      + (if planMode then Known(catalog, PLAN_PINNED) else {})
  }

  function SelectedEnabled(catalog: Catalog, cfg: ToolConfig, planMode: bool, stored: StoredTools,
                           selection: Selection): set<string> {
    Layers(catalog, planMode, DefaultEnabled(catalog, cfg), stored.enabled, selection.enabled,
           selection.enable, selection.disable)
  }

  function SelectedPinned(catalog: Catalog, cfg: ToolConfig, planMode: bool, stored: StoredTools,
                          selection: Selection): set<string> {
    Layers(catalog, planMode, DefaultPinned(catalog, cfg), stored.pinned, selection.pinned,
           selection.pin, selection.unpin)
  }

  /** The clean-up: pinned and revealed within enabled, revealed without pinned,
      and the search tool brought in when something enabled is hidden. */
  function Settle(catalog: Catalog, enabled: set<string>, pinned: set<string>, revealed: set<string>): ToolState {
    var p := pinned * enabled;
    var s := ToolState(enabled, p, revealed * enabled - p);
    if HasHidden(s) && SEARCH in catalog then s.(enabled := enabled + {SEARCH}, pinned := p + {SEARCH}) else s
  }

  function Resolve(catalog: Catalog, cfg: ToolConfig, planMode: bool, stored: StoredTools, selection: Selection)
    : ToolState
  {
    Settle(catalog,
           SelectedEnabled(catalog, cfg, planMode, stored, selection),
           SelectedPinned(catalog, cfg, planMode, stored, selection),
           Layer(catalog, {}, stored.revealed))
  }

  /** Revealing touches only enabled tools that are not pinned. */
  function Reveal(s: ToolState, ids: seq<string>): ToolState {
    s.(revealed := s.revealed + (Elements(ids) * s.enabled - s.pinned))
  }

  function RevealAll(s: ToolState, batches: seq<seq<string>>): ToolState {
    if batches == [] then s else Reveal(RevealAll(s, batches[..|batches| - 1]), batches[|batches| - 1])
  }

  function Visible(s: ToolState): set<string> {
    s.enabled * (s.pinned + s.revealed)
  }

  class AgentRuntime {
    const tools: Catalog
    const cfg: ToolConfig
    const planMode: bool
    var enabled: set<string>
    var pinned: set<string>
    var revealed: set<string>

    ghost function State(): ToolState
      reads this
    {
      ToolState(enabled, pinned, revealed)
    }

    constructor (tools: Catalog, cfg: ToolConfig, planMode: bool)
      ensures this.tools == tools && this.cfg == cfg && this.planMode == planMode
      ensures State() == ToolState({}, {}, {})
    {
      this.tools := tools;
      this.cfg := cfg;
      this.planMode := planMode;
      enabled, pinned, revealed := {}, {}, {};
    }

    method MergeIntoSet(target: set<string>, ids: seq<string>) returns (out: set<string>)
      ensures out == target + Known(tools, ids)
    {
      out := target;
      for i := 0 to |ids|
        invariant out == target + Known(tools, ids[..i])
      {
        var id := TrimSpace(ids[i]);
        assert ids[..i + 1] == ids[..i] + [ids[i]];
        if id != "" && id in tools {
          out := out + {id};
        }
      }
      assert ids[..|ids|] == ids;
    }

    method ToSet(ids: seq<string>) returns (out: set<string>)
      ensures out == Known(tools, ids)
    {
      out := MergeIntoSet({}, ids);
    }

    method RemoveFromSet(target: set<string>, ids: seq<string>) returns (out: set<string>)
      ensures out == target - Trims(ids)
    {
      out := target;
      for i := 0 to |ids|
        invariant out == target - Trims(ids[..i])
      {
        assert ids[..i + 1] == ids[..i] + [ids[i]];
        out := out - {TrimSpace(ids[i])};
      }
      assert ids[..|ids|] == ids;
    }

    method HasHiddenEnabledTools(s: ToolState) returns (hidden: bool)
      ensures hidden == HasHidden(s)
    {
      var remaining := s.enabled;
      while remaining != {}
        invariant remaining <= s.enabled
        invariant forall id :: id in s.enabled && id !in remaining ==> !Hidden(s, id)
        decreases |remaining|
      {
        var id :| id in remaining;
        remaining := remaining - {id};
        if id == SEARCH {
          continue;
        }
        if id in s.pinned {
          continue;
        }
        if id in s.revealed {
          continue;
        }
        assert Hidden(s, id);
        return true;
      }
      return false;
    }

    method ConfiguredDefaults() returns (e: set<string>, p: set<string>)
      ensures e == DefaultEnabled(tools, cfg)
      ensures p == DefaultPinned(tools, cfg)
    {
      e, p := {}, {};
      var remaining := tools.Keys;
      while remaining != {}
        invariant remaining <= tools.Keys
        invariant e == set id | id in tools && id !in remaining && tools[id].enabled
        invariant p == set id | id in tools && id !in remaining && tools[id].pinned
        decreases |remaining|
      {
        var id :| id in remaining;
        remaining := remaining - {id};
        if tools[id].enabled {
          e := e + {id};
        }
        if tools[id].pinned {
          p := p + {id};
        }
      }
      e := e + Elements(cfg.defaultEnabled) * tools.Keys;
      e := e - Elements(cfg.defaultDisabled);
      p := p - Elements(cfg.defaultDisabled);
      p := p + Elements(cfg.defaultPinned) * tools.Keys;
    }

    /** The last part of resolution: three loops that delete while ranging. */
    method CleanUp(e: set<string>, p: set<string>, r: set<string>) returns (s: ToolState)
      ensures s == Settle(tools, e, p, r)
    {
      var enabledSet, pinnedSet, revealedSet := e, p, r;
      pinnedSet := DropDisabled(p, e);
      var remaining := r;
      while remaining != {}
        invariant remaining <= r
        invariant revealedSet == r - ((r - remaining) - (e - pinnedSet))
        decreases |remaining|
      {
        var id :| id in remaining;
        remaining := remaining - {id};
        if id !in enabledSet {
          revealedSet := revealedSet - {id};
          continue;
        }
        if id in pinnedSet {
          revealedSet := revealedSet - {id};
        }
      }
      var hidden := HasHiddenEnabledTools(ToolState(enabledSet, pinnedSet, revealedSet));
      assert revealedSet == r * e - pinnedSet;
      if hidden {
        if SEARCH in tools {
          enabledSet := enabledSet + {SEARCH};
          pinnedSet := pinnedSet + {SEARCH};
        }
      }
      ghost var before := pinnedSet;
      pinnedSet := DropDisabled(pinnedSet, enabledSet);
      assert pinnedSet == before;
      s := ToolState(enabledSet, pinnedSet, revealedSet);
    }

    method DropDisabled(items: set<string>, allowed: set<string>) returns (out: set<string>)
      ensures out == items * allowed
    {
      out := items;
      var remaining := items;
      while remaining != {}
        invariant remaining <= items
        invariant out == items - ((items - remaining) - allowed)
        decreases |remaining|
      {
        var id :| id in remaining;
        remaining := remaining - {id};
        if id !in allowed {
          out := out - {id};
        }
      }
    }

    /** The layers of one set: stored list, selected list, additions, removals, plan mode. */
    method ApplyLayers(defaults: set<string>, stored: Option<seq<string>>, selected: Option<seq<string>>,
                       add: seq<string>, remove: seq<string>) returns (out: set<string>)
      ensures out == Layers(tools, planMode, defaults, stored, selected, add, remove)
    {
      out := defaults;
      if stored.Some? {
        out := ToSet(stored.value);
      }
      if selected.Some? {
        out := ToSet(selected.value);
      }
      out := MergeIntoSet(out, add);
      out := RemoveFromSet(out, remove);
      if planMode {
        out := MergeIntoSet(out, PLAN_PINNED);
      }
    }

    method ResolveToolState(stored: StoredTools, selection: Selection)
      modifies this
      ensures State() == Resolve(tools, cfg, planMode, stored, selection)
    {
      var e, p := ConfiguredDefaults();
      e := ApplyLayers(e, stored.enabled, selection.enabled, selection.enable, selection.disable);
      p := ApplyLayers(p, stored.pinned, selection.pinned, selection.pin, selection.unpin);
      var r: set<string> := {};
      if stored.revealed.Some? {
        r := ToSet(stored.revealed.value);
      }
      var s := CleanUp(e, p, r);
      enabled, pinned, revealed := s.enabled, s.pinned, s.revealed;
    }

    /** Also the loop body of `applyActiveSkillAutoreveals`, which tests the same
        four conditions in another order. */
    method RevealTools(ids: seq<string>) returns (newly: seq<string>)
      requires enabled <= tools.Keys
      modifies this`revealed
      ensures State() == Reveal(old(State()), ids)
      ensures Elements(newly) == revealed - old(revealed)
      ensures forall i, j :: 0 <= i < j < |newly| ==> newly[i] != newly[j]
    {
      newly := [];
      for i := 0 to |ids|
        invariant revealed == old(revealed) + (Elements(ids[..i]) * enabled - pinned)
        invariant Elements(newly) == revealed - old(revealed)
        invariant forall k, j :: 0 <= k < j < |newly| ==> newly[k] != newly[j]
      {
        var id := ids[i];
        assert ids[..i + 1] == ids[..i] + [id];
        ElementsAppend(ids[..i], id);
        if id !in enabled {
          continue;
        }
        if id in pinned {
          continue;
        }
        if id !in tools {
          continue;
        }
        if id in revealed {
          continue;
        }
        revealed := revealed + {id};
        assert id !in Elements(newly);
        ElementsAppend(newly, id);
        newly := newly + [id];
      }
      assert ids[..|ids|] == ids;
    }

    /** `sortedIds` is the catalog in display order, which the result keeps. */
    method VisibleToolIDs(sortedIds: seq<string>) returns (visible: seq<string>)
      requires Elements(sortedIds) == tools.Keys
      requires enabled <= tools.Keys
      ensures visible == Filter(sortedIds, Visible(State()))
      ensures Elements(visible) == Visible(State())
    {
      visible := [];
      for i := 0 to |sortedIds|
        invariant Elements(visible) == Visible(State()) * Elements(sortedIds[..i])
        invariant visible == Filter(sortedIds[..i], Visible(State()))
      {
        var id := sortedIds[i];
        assert sortedIds[..i + 1] == sortedIds[..i] + [id];
        assert sortedIds[..i + 1][..i] == sortedIds[..i];
        ElementsAppend(sortedIds[..i], id);
        ElementsAppend(visible, id);
        if id !in enabled {
          continue;
        }
        if id in pinned {
          visible := visible + [id];
          continue;
        }
        if id in revealed {
          visible := visible + [id];
        }
      }
      assert sortedIds[..|sortedIds|] == sortedIds;
    }
  }

  // ------------------------------------------------------------------ the invariant

  ghost predicate WellFormed(catalog: Catalog, s: ToolState) {
    && s.enabled <= catalog.Keys
    && s.pinned <= s.enabled
    && s.revealed <= s.enabled
    && s.revealed * s.pinned <= {SEARCH}
    && (HasHidden(s) && SEARCH in catalog ==> SEARCH in s.enabled && SEARCH in s.pinned)
  }

  lemma SelectedWithinCatalog(catalog: Catalog, cfg: ToolConfig, planMode: bool, stored: StoredTools,
                              selection: Selection)
    ensures SelectedEnabled(catalog, cfg, planMode, stored, selection) <= catalog.Keys
  {
  }

  lemma SettleWellFormed(catalog: Catalog, enabled: set<string>, pinned: set<string>, revealed: set<string>)
    requires enabled <= catalog.Keys
    ensures WellFormed(catalog, Settle(catalog, enabled, pinned, revealed))
  {
    var p := pinned * enabled;
    var s := ToolState(enabled, p, revealed * enabled - p);
    var t := Settle(catalog, enabled, pinned, revealed);
    if HasHidden(t) {
      var id :| id in t.enabled && Hidden(t, id);
      assert Hidden(s, id);
    }
  }

  /** Is an id in the topmost list that is given, or on by default? */
  predicate Listed(id: string, byDefault: bool, stored: Option<seq<string>>, selected: Option<seq<string>>) {
    if selected.Some? then Named(selected.value, id)
    else if stored.Some? then Named(stored.value, id)
    else byDefault
  }

  /** Is an id, apart from outer white space, in a list? */
  predicate Mentioned(ids: seq<string>, id: string) {
    exists i :: 0 <= i < |ids| && TrimSpace(ids[i]) == id
  }

  predicate Named(ids: seq<string>, id: string) {
    id != "" && Mentioned(ids, id)
  }

  lemma MentionedExactly(ids: seq<string>, id: string)
    ensures id in Trims(ids) <==> Mentioned(ids, id)
  {
    if id in Trims(ids) {
      var named :| named in ids && TrimSpace(named) == id;
      var i :| 0 <= i < |ids| && ids[i] == named;
    }
  }

  /** The layers amount to this: an id of the catalog is in when plan mode forces
      it, or when nothing removes it and it is added or the topmost list has it. */
  lemma LayersExactly(catalog: Catalog, planMode: bool, defaults: set<string>, stored: Option<seq<string>>,
                      selected: Option<seq<string>>, add: seq<string>, remove: seq<string>, id: string)
    requires id in catalog
    ensures id in Layers(catalog, planMode, defaults, stored, selected, add, remove)
            <==> (planMode && id in PLAN_PINNED)
                 || (!Mentioned(remove, id) && (Named(add, id) || Listed(id, id in defaults, stored, selected)))
  {
    PlanNamesTrimmed();
    MentionedExactly(remove, id);
    if id in PLAN_PINNED {
      var i :| 0 <= i < |PLAN_PINNED| && PLAN_PINNED[i] == id;
      assert TrimSpace(PLAN_PINNED[i]) == id;
    }
    KnownExactly(catalog, add, id);
    KnownExactly(catalog, PLAN_PINNED, id);
    if stored.Some? {
      KnownExactly(catalog, stored.value, id);
    }
    if selected.Some? {
      KnownExactly(catalog, selected.value, id);
    }
  }

  lemma KnownExactly(catalog: Catalog, ids: seq<string>, id: string)
    requires id in catalog
    ensures id in Known(catalog, ids) <==> Named(ids, id)
  {
    MentionedExactly(ids, id);
  }

  /** The defaults by catalog and configuration: being disabled wins over being
      enabled, and being pinned over being disabled. */
  predicate OnByDefault(catalog: Catalog, cfg: ToolConfig, id: string)
    requires id in catalog
  {
    id !in cfg.defaultDisabled && (catalog[id].enabled || id in cfg.defaultEnabled)
  }

  predicate PinnedByDefault(catalog: Catalog, cfg: ToolConfig, id: string)
    requires id in catalog
  {
    id in cfg.defaultPinned || (catalog[id].pinned && id !in cfg.defaultDisabled)
  }

  /** By the inputs, is a tool of the catalog enabled, pinned, revealed? */
  predicate On(catalog: Catalog, cfg: ToolConfig, planMode: bool, stored: StoredTools, selection: Selection, id: string)
    requires id in catalog
  {
    (planMode && id in PLAN_PINNED)
    || (!Mentioned(selection.disable, id)
        && (Named(selection.enable, id)
            || Listed(id, OnByDefault(catalog, cfg, id), stored.enabled, selection.enabled)))
  }

  predicate Pinned(catalog: Catalog, cfg: ToolConfig, planMode: bool, stored: StoredTools, selection: Selection, id: string)
    requires id in catalog
  {
    (planMode && id in PLAN_PINNED)
    || (!Mentioned(selection.unpin, id)
        && (Named(selection.pin, id)
            || Listed(id, PinnedByDefault(catalog, cfg, id), stored.pinned, selection.pinned)))
  }

  predicate WasRevealed(stored: StoredTools, id: string) {
    stored.revealed.Some? && Named(stored.revealed.value, id)
  }

  lemma InputsExactly(catalog: Catalog, cfg: ToolConfig, planMode: bool, stored: StoredTools, selection: Selection, id: string)
    requires id in catalog
    ensures id in SelectedEnabled(catalog, cfg, planMode, stored, selection)
            <==> On(catalog, cfg, planMode, stored, selection, id)
    ensures id in SelectedPinned(catalog, cfg, planMode, stored, selection)
            <==> Pinned(catalog, cfg, planMode, stored, selection, id)
    ensures id in Layer(catalog, {}, stored.revealed) <==> WasRevealed(stored, id)
  {
    LayersExactly(catalog, planMode, DefaultEnabled(catalog, cfg), stored.enabled, selection.enabled, selection.enable,
                  selection.disable, id);
    LayersExactly(catalog, planMode, DefaultPinned(catalog, cfg), stored.pinned, selection.pinned, selection.pin,
                  selection.unpin, id);
    if stored.revealed.Some? {
      KnownExactly(catalog, stored.revealed.value, id);
    }
  }

  /** Do the inputs enable some other tool that they leave out of sight? */
  predicate SearchNeeded(catalog: Catalog, cfg: ToolConfig, planMode: bool, stored: StoredTools, selection: Selection) {
    SEARCH in catalog
    && exists id :: id in catalog && id != SEARCH && On(catalog, cfg, planMode, stored, selection, id)
                    && !Pinned(catalog, cfg, planMode, stored, selection, id) && !WasRevealed(stored, id)
  }

  /** The resolved state, by catalog, configuration, stored lists and selection alone. */
  lemma ResolveExactly(catalog: Catalog, cfg: ToolConfig, planMode: bool, stored: StoredTools, selection: Selection)
    ensures var t := Resolve(catalog, cfg, planMode, stored, selection);
            && t.enabled <= catalog.Keys && t.pinned <= catalog.Keys && t.revealed <= catalog.Keys
            && forall id :: id in catalog ==>
                 var on := On(catalog, cfg, planMode, stored, selection, id);
                 var pinned := Pinned(catalog, cfg, planMode, stored, selection, id);
                 var search := id == SEARCH && SearchNeeded(catalog, cfg, planMode, stored, selection);
                 && (id in t.enabled <==> on || search)
                 && (id in t.pinned <==> (on && pinned) || search)
                 && (id in t.revealed <==> on && !pinned && WasRevealed(stored, id))
  {
    var e, p, r := SelectedEnabled(catalog, cfg, planMode, stored, selection),
                   SelectedPinned(catalog, cfg, planMode, stored, selection), Layer(catalog, {}, stored.revealed);
    SelectedWithinCatalog(catalog, cfg, planMode, stored, selection);
    forall id | id in catalog
      ensures id in e <==> On(catalog, cfg, planMode, stored, selection, id)
      ensures id in p <==> Pinned(catalog, cfg, planMode, stored, selection, id)
      ensures id in r <==> WasRevealed(stored, id)
    {
      InputsExactly(catalog, cfg, planMode, stored, selection, id);
    }
    HiddenExactly(e, p, r);
  }

  lemma HiddenExactly(enabled: set<string>, pinned: set<string>, revealed: set<string>)
    ensures HasHidden(ToolState(enabled, pinned * enabled, revealed * enabled - pinned * enabled))
            <==> exists id :: id in enabled && id != SEARCH && id !in pinned && id !in revealed
  {
    var s := ToolState(enabled, pinned * enabled, revealed * enabled - pinned * enabled);
    if id :| id in enabled && id != SEARCH && id !in pinned && id !in revealed {
      assert Hidden(s, id);
    }
  }

  /** With nothing stored and nothing selected the configuration decides. */
  lemma ConfigurationDecides(catalog: Catalog, cfg: ToolConfig, id: string)
    requires id in catalog && id != SEARCH
    ensures var t := Resolve(catalog, cfg, false, StoredTools(None, None, None), NO_SELECTION);
            && (id in t.enabled <==> id !in cfg.defaultDisabled && (catalog[id].enabled || id in cfg.defaultEnabled))
            && (id in t.pinned <==> id in t.enabled && (catalog[id].pinned || id in cfg.defaultPinned))
            && t.revealed == {}
  {
    ResolveExactly(catalog, cfg, false, StoredTools(None, None, None), NO_SELECTION);
  }

  /** Resolution leaves a tool both pinned and revealed exactly when the inputs
      enable the search tool, have it revealed and unpinned, and enable some other
      tool that they neither pin nor have revealed. */
  lemma OverlapExactly(catalog: Catalog, cfg: ToolConfig, planMode: bool, stored: StoredTools, selection: Selection)
    ensures var t := Resolve(catalog, cfg, planMode, stored, selection);
            t.revealed * t.pinned != {}
            <==> SearchNeeded(catalog, cfg, planMode, stored, selection)
                 && On(catalog, cfg, planMode, stored, selection, SEARCH)
                 && !Pinned(catalog, cfg, planMode, stored, selection, SEARCH) && WasRevealed(stored, SEARCH)
  {
    ResolveExactly(catalog, cfg, planMode, stored, selection);
    var t := Resolve(catalog, cfg, planMode, stored, selection);
    ResolveWellFormed(catalog, cfg, planMode, stored, selection);
    assert t.revealed * t.pinned != {} <==> SEARCH in t.revealed * t.pinned;
  }

  /** Resolution always ends in a well-formed state, whatever the catalog, the
      configuration, the stored lists and the selection. */
  lemma ResolveWellFormed(catalog: Catalog, cfg: ToolConfig, planMode: bool, stored: StoredTools, selection: Selection)
    ensures WellFormed(catalog, Resolve(catalog, cfg, planMode, stored, selection))
  {
    SelectedWithinCatalog(catalog, cfg, planMode, stored, selection);
    SettleWellFormed(catalog,
                     SelectedEnabled(catalog, cfg, planMode, stored, selection),
                     SelectedPinned(catalog, cfg, planMode, stored, selection),
                     Layer(catalog, {}, stored.revealed));
  }

  lemma RevealKeepsWellFormed(catalog: Catalog, s: ToolState, ids: seq<string>)
    requires WellFormed(catalog, s)
    ensures WellFormed(catalog, Reveal(s, ids))
    ensures Visible(s) <= Visible(Reveal(s, ids))
    ensures Visible(Reveal(s, ids)) == Visible(s) + Elements(ids) * s.enabled
    ensures HasHidden(Reveal(s, ids)) ==> HasHidden(s)
  {
    var t := Reveal(s, ids);
    if HasHidden(t) {
      var id :| id in t.enabled && Hidden(t, id);
      assert Hidden(s, id);
    }
  }

  /** Any number of reveals keeps the invariant, the enabled and the pinned set,
      and only grows what the model sees. */
  lemma {:induction false} RevealsOnlyGrow(catalog: Catalog, s: ToolState, batches: seq<seq<string>>)
    requires WellFormed(catalog, s)
    ensures WellFormed(catalog, RevealAll(s, batches))
    ensures RevealAll(s, batches).enabled == s.enabled && RevealAll(s, batches).pinned == s.pinned
    ensures Visible(s) <= Visible(RevealAll(s, batches))
  {
    if batches != [] {
      RevealsOnlyGrow(catalog, s, batches[..|batches| - 1]);
      RevealKeepsWellFormed(catalog, RevealAll(s, batches[..|batches| - 1]), batches[|batches| - 1]);
    }
  }

  // ------------------------------------------------------------------ what a selection means

  /** Disabling beats every way of enabling except plan mode and the search
      tool; pinning and enabling by name beat the layers below. */
  lemma SelectionWins(catalog: Catalog, cfg: ToolConfig, planMode: bool, stored: StoredTools, selection: Selection,
                      id: string)
    requires id != SEARCH && (planMode ==> id !in PLAN_PINNED)
    ensures var s := Resolve(catalog, cfg, planMode, stored, selection);
            && (id in Trims(selection.disable) ==> id !in s.enabled && id !in Visible(s))
            && (id in Known(catalog, selection.enable) && id !in Trims(selection.disable) ==> id in s.enabled)
            && (id in Trims(selection.unpin) ==> id !in s.pinned)
            && (id in Known(catalog, selection.pin) && id !in Trims(selection.unpin) && id in s.enabled ==>
                  id in s.pinned && id in Visible(s))
  {
    PlanNamesTrimmed();
  }

  lemma PlanNamesTrimmed()
    ensures forall id :: id in PLAN_PINNED ==> TrimSpace(id) == id
  {
    assert Trimmed("view") && Trimmed("write") && Trimmed("edit") && Trimmed("multiedit") && Trimmed("plan_exit");
  }

  /** Plan mode always shows its own tools. */
  lemma PlanToolsVisible(catalog: Catalog, cfg: ToolConfig, stored: StoredTools, selection: Selection, id: string)
    requires id in PLAN_PINNED && id in catalog
    ensures id in Visible(Resolve(catalog, cfg, true, stored, selection))
  {
    PlanNamesTrimmed();
    assert id in Known(catalog, PLAN_PINNED);
  }

  // ------------------------------------------------------------------ storing and resolving again

  /** Stored lists that hold a state: same elements, any order. */
  ghost predicate Stores(stored: StoredTools, s: ToolState) {
    && stored.enabled.Some? && Elements(stored.enabled.value) == s.enabled
    && stored.pinned.Some? && Elements(stored.pinned.value) == s.pinned
    && stored.revealed.Some? && Elements(stored.revealed.value) == s.revealed
  }

  predicate CleanIds(ids: set<string>) {
    forall id :: id in ids ==> id != "" && Trimmed(id)
  }

  lemma KnownClean(catalog: Catalog, ids: seq<string>)
    requires Elements(ids) <= catalog.Keys && CleanIds(Elements(ids))
    ensures Known(catalog, ids) == Elements(ids)
  {
    assert forall id :: id in ids ==> id in Elements(ids);
    assert forall id :: id in ids ==> TrimSpace(id) == id;
  }

  /** A state that a run can be in: resolved, then revealed into. */
  ghost predicate Reached(catalog: Catalog, cfg: ToolConfig, planMode: bool, s: ToolState) {
    exists stored: StoredTools, selection: Selection, batches: seq<seq<string>> ::
      s == RevealAll(Resolve(catalog, cfg, planMode, stored, selection), batches)
  }

  /** Everything that resolution promised and reveals have kept. */
  lemma ReachedFacts(catalog: Catalog, cfg: ToolConfig, planMode: bool, s: ToolState)
    requires Reached(catalog, cfg, planMode, s)
    ensures WellFormed(catalog, s)
    ensures planMode ==> Known(catalog, PLAN_PINNED) <= s.pinned
  {
    var stored: StoredTools, selection: Selection, batches: seq<seq<string>> :|
      s == RevealAll(Resolve(catalog, cfg, planMode, stored, selection), batches);
    ResolveWellFormed(catalog, cfg, planMode, stored, selection);
    RevealsOnlyGrow(catalog, Resolve(catalog, cfg, planMode, stored, selection), batches);
  }

  /** Resuming from the stored state keeps enabled, pinned and visible tools; the
      search tool's redundant reveal is the only thing dropped, and resolving
      once more changes nothing. */
  lemma ResolveAgain(catalog: Catalog, cfg: ToolConfig, planMode: bool, s: ToolState, stored: StoredTools)
    requires Reached(catalog, cfg, planMode, s) && Stores(stored, s) && CleanIds(s.enabled)
    ensures Resolve(catalog, cfg, planMode, stored, NO_SELECTION) == s.(revealed := s.revealed - s.pinned)
    ensures Visible(Resolve(catalog, cfg, planMode, stored, NO_SELECTION)) == Visible(s)
    ensures forall again :: Stores(again, Resolve(catalog, cfg, planMode, stored, NO_SELECTION)) ==>
              Resolve(catalog, cfg, planMode, again, NO_SELECTION) == Resolve(catalog, cfg, planMode, stored, NO_SELECTION)
  {
    ReachedFacts(catalog, cfg, planMode, s);
    ResolveStored(catalog, cfg, planMode, s, stored);
    var t := Resolve(catalog, cfg, planMode, stored, NO_SELECTION);
    forall again | Stores(again, t) ensures Resolve(catalog, cfg, planMode, again, NO_SELECTION) == t {
      if HasHidden(t) {
        var id :| id in t.enabled && Hidden(t, id);
        assert Hidden(s, id);
      }
      ResolveStored(catalog, cfg, planMode, t, again);
    }
  }

  /** Cleaning up a well-formed state only drops reveals of pinned tools. */
  lemma SettleAgain(catalog: Catalog, s: ToolState)
    requires WellFormed(catalog, s)
    ensures Settle(catalog, s.enabled, s.pinned, s.revealed) == s.(revealed := s.revealed - s.pinned)
  {
    var t := s.(revealed := s.revealed - s.pinned);
    assert s.revealed * s.enabled - s.pinned * s.enabled == t.revealed && s.pinned * s.enabled == s.pinned;
    if HasHidden(t) {
      var id :| id in t.enabled && Hidden(t, id);
      assert Hidden(s, id);
      assert SEARCH in catalog ==> s.enabled + {SEARCH} == s.enabled && s.pinned + {SEARCH} == s.pinned;
    }
  }

  lemma ResolveStored(catalog: Catalog, cfg: ToolConfig, planMode: bool, s: ToolState, stored: StoredTools)
    requires WellFormed(catalog, s) && (planMode ==> Known(catalog, PLAN_PINNED) <= s.pinned)
    requires Stores(stored, s) && CleanIds(s.enabled)
    ensures Resolve(catalog, cfg, planMode, stored, NO_SELECTION) == s.(revealed := s.revealed - s.pinned)
  {
    KnownClean(catalog, stored.enabled.value);
    KnownClean(catalog, stored.pinned.value);
    KnownClean(catalog, stored.revealed.value);
    assert Known(catalog, []) == {} && Trims([]) == {};
    assert SelectedEnabled(catalog, cfg, planMode, stored, NO_SELECTION) == s.enabled;
    assert SelectedPinned(catalog, cfg, planMode, stored, NO_SELECTION) == s.pinned;
    assert Layer(catalog, {}, stored.revealed) == s.revealed;
    SettleAgain(catalog, s);
  }

  lemma DirtyNeverKnown(catalog: Catalog, bad: string)
    requires !(bad != "" && Trimmed(bad))
    ensures bad != SEARCH && forall ids :: bad !in Known(catalog, ids)
  {
    assert Trimmed(SEARCH);
    forall ids ensures bad !in Known(catalog, ids) {
      if bad in Known(catalog, ids) {
        var id :| id in ids && TrimSpace(id) == bad;
        TrimSpaceTrims(id);
      }
    }
  }

  /** Ids are trimmed on the way back in, so the enabled set survives exactly
      when none of its ids is blank or has outer white space. */
  lemma EnabledSurvivesExactly(catalog: Catalog, cfg: ToolConfig, planMode: bool, s: ToolState, stored: StoredTools)
    requires Reached(catalog, cfg, planMode, s) && Stores(stored, s)
    ensures Resolve(catalog, cfg, planMode, stored, NO_SELECTION).enabled == s.enabled <==> CleanIds(s.enabled)
  {
    if CleanIds(s.enabled) {
      ResolveAgain(catalog, cfg, planMode, s, stored);
    } else {
      var bad :| bad in s.enabled && !(bad != "" && Trimmed(bad));
      DirtyNeverKnown(catalog, bad);
    }
  }

  const TODO := "todowrite"
  const KNOWLEDGE := "search_knowledge"

  lemma InternalNamesTrimmed()
    ensures TrimSpace(SEARCH) == SEARCH && TrimSpace(TODO) == TODO && TrimSpace(KNOWLEDGE) == KNOWLEDGE
    ensures SEARCH != TODO && TODO != KNOWLEDGE && SEARCH != KNOWLEDGE
  {
    assert Trimmed(SEARCH) && Trimmed(TODO) && Trimmed(KNOWLEDGE);
    assert |SEARCH| == 12 && |TODO| == 9 && |KNOWLEDGE| == 16;
  }

  /** A first run that enables two tools and pins one, and then reveals the search tool. */
  function FirstRun(catalog: Catalog, cfg: ToolConfig): ToolState {
    Reveal(Resolve(catalog, cfg, false, StoredTools(None, None, None),
                   Selection(Some([SEARCH, TODO]), Some([TODO]), [], [], [], [])), [SEARCH])
  }

  lemma FirstSelected(catalog: Catalog, cfg: ToolConfig)
    requires {SEARCH, TODO} <= catalog.Keys
    ensures var none := StoredTools(None, None, None);
            var selection := Selection(Some([SEARCH, TODO]), Some([TODO]), [], [], [], []);
            && SelectedEnabled(catalog, cfg, false, none, selection) == {SEARCH, TODO}
            && SelectedPinned(catalog, cfg, false, none, selection) == {TODO}
  {
    InternalNamesTrimmed();
    KnownNames(catalog, [SEARCH, TODO]);
    KnownNames(catalog, [TODO]);
    assert Known(catalog, []) == {} && Trims([]) == {};
    assert Elements([SEARCH, TODO]) == {SEARCH, TODO} && Elements([TODO]) == {TODO};
  }

  lemma NothingHidden(catalog: Catalog)
    ensures Settle(catalog, {SEARCH, TODO}, {TODO}, {}) == ToolState({SEARCH, TODO}, {TODO}, {})
  {
    InternalNamesTrimmed();
    assert {TODO} * {SEARCH, TODO} == {TODO} && {} * {SEARCH, TODO} - {TODO} == {};
    assert !HasHidden(ToolState({SEARCH, TODO}, {TODO}, {}));
  }

  lemma FirstRunIs(catalog: Catalog, cfg: ToolConfig)
    requires {SEARCH, TODO} <= catalog.Keys
    ensures FirstRun(catalog, cfg) == ToolState({SEARCH, TODO}, {TODO}, {SEARCH})
    ensures Reached(catalog, cfg, false, FirstRun(catalog, cfg))
  {
    var none := StoredTools(None, None, None);
    var selection := Selection(Some([SEARCH, TODO]), Some([TODO]), [], [], [], []);
    assert Resolve(catalog, cfg, false, none, selection) == ToolState({SEARCH, TODO}, {TODO}, {}) by {
      FirstSelected(catalog, cfg);
      NothingHidden(catalog);
    }
    SearchRevealed();
    OneReveal(Resolve(catalog, cfg, false, none, selection), [SEARCH]);
  }

  lemma SearchRevealed()
    ensures Reveal(ToolState({SEARCH, TODO}, {TODO}, {}), [SEARCH]) == ToolState({SEARCH, TODO}, {TODO}, {SEARCH})
  {
    InternalNamesTrimmed();
    assert Elements([SEARCH]) == {SEARCH};
    assert {} + ({SEARCH} * {SEARCH, TODO} - {TODO}) == {SEARCH};
  }

  lemma OneReveal(s: ToolState, ids: seq<string>)
    ensures RevealAll(s, [ids]) == Reveal(s, ids)
  {
    assert [ids][..0] == [];
  }

  lemma KnownNames(catalog: Catalog, ids: seq<string>)
    requires forall id :: id in ids ==> id != "" && TrimSpace(id) == id && id in catalog
    ensures Known(catalog, ids) == Elements(ids)
  {
    assert forall id :: id in ids ==> id in Elements(ids);
  }

  lemma SecondSelected(catalog: Catalog, cfg: ToolConfig, stored: StoredTools)
    requires {SEARCH, TODO, KNOWLEDGE} <= catalog.Keys
    requires stored == StoredTools(Some([SEARCH, TODO]), Some([TODO]), Some([SEARCH]))
    ensures var selection := NO_SELECTION.(enable := [KNOWLEDGE]);
            && SelectedEnabled(catalog, cfg, false, stored, selection) == {SEARCH, TODO, KNOWLEDGE}
            && SelectedPinned(catalog, cfg, false, stored, selection) == {TODO}
            && Layer(catalog, {}, stored.revealed) == {SEARCH}
  {
    InternalNamesTrimmed();
    KnownNames(catalog, [SEARCH, TODO]);
    KnownNames(catalog, [TODO]);
    KnownNames(catalog, [SEARCH]);
    KnownNames(catalog, [KNOWLEDGE]);
    assert Known(catalog, []) == {} && Trims([]) == {};
    assert Elements([SEARCH, TODO]) == {SEARCH, TODO} && Elements([TODO]) == {TODO};
    assert Elements([SEARCH]) == {SEARCH} && Elements([KNOWLEDGE]) == {KNOWLEDGE};
  }

  /** With the tools every catalog has: the first run's state is stored, and the
      next run, asked to enable one more tool, has the search tool pinned and
      revealed. */
  lemma OverlapHappens(catalog: Catalog, cfg: ToolConfig)
    requires {SEARCH, TODO, KNOWLEDGE} <= catalog.Keys
    ensures var stored := StoredTools(Some([SEARCH, TODO]), Some([TODO]), Some([SEARCH]));
            var t := Resolve(catalog, cfg, false, stored, NO_SELECTION.(enable := [KNOWLEDGE]));
            && Reached(catalog, cfg, false, FirstRun(catalog, cfg)) && Stores(stored, FirstRun(catalog, cfg))
            && SEARCH in t.pinned && SEARCH in t.revealed
  {
    FirstRunIs(catalog, cfg);
    assert Elements([SEARCH, TODO]) == {SEARCH, TODO} && Elements([TODO]) == {TODO} && Elements([SEARCH]) == {SEARCH};
    SecondSelected(catalog, cfg, StoredTools(Some([SEARCH, TODO]), Some([TODO]), Some([SEARCH])));
    OverlapSettles(catalog);
  }

  lemma OverlapSettles(catalog: Catalog)
    requires SEARCH in catalog
    ensures var t := Settle(catalog, {SEARCH, TODO, KNOWLEDGE}, {TODO}, {SEARCH});
            SEARCH in t.pinned && SEARCH in t.revealed
  {
    InternalNamesTrimmed();
    var e, p, r := {SEARCH, TODO, KNOWLEDGE}, {TODO}, {SEARCH};
    var s := ToolState(e, p * e, r * e - p * e);
    assert Hidden(s, KNOWLEDGE);
  }

  ghost function Listing(ids: set<string>): (list: seq<string>)
    ensures Elements(list) == ids
  {
    if ids == {} then []
    else
      var id :| id in ids;
      var rest := Listing(ids - {id});
      ElementsAppend(rest, id);
      rest + [id]
  }

  /** Such a state is reached, whatever else the catalog has: a tool whose id has
      outer white space, enabled by default, is stored and gone when the stored
      state is resolved. */
  lemma UntrimmedIdIsLost(catalog: Catalog, cfg: ToolConfig, bad: string) returns (stored: StoredTools)
    requires bad in catalog && catalog[bad].enabled && bad !in cfg.defaultDisabled && !Trimmed(bad)
    ensures var s := Resolve(catalog, cfg, false, StoredTools(None, None, None), NO_SELECTION);
            && Reached(catalog, cfg, false, s) && Stores(stored, s) && bad in s.enabled
            && bad !in Resolve(catalog, cfg, false, stored, NO_SELECTION).enabled
  {
    var none := StoredTools(None, None, None);
    var s := Resolve(catalog, cfg, false, none, NO_SELECTION);
    stored := StoredTools(Some(Listing(s.enabled)), Some(Listing(s.pinned)), Some(Listing(s.revealed)));
    InputsExactly(catalog, cfg, false, none, NO_SELECTION, bad);
    assert Trims([]) == {};
    assert s == RevealAll(Resolve(catalog, cfg, false, none, NO_SELECTION), []);
    DirtyNeverKnown(catalog, bad);
  }
}
