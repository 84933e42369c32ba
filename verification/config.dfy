/** The runtime configuration: highlight colours, tag-hint visibility and the
    element-ignore rules, replaced on each update by a nested shallow merge.

    JavaScript's object spread copies a key that is present with the value
    `undefined`, so a patch field is `Absent` (key missing) or
    `Present(v)` with `v` itself optional; configuration values are optional
    for the same reason. */
module Config {
  import opened Wrappers

  datatype Field<T> = Absent | Present(value: Option<T>)

  datatype Highlight = Highlight(color: Option<string>, labelTextColor: Option<string>, boxShadow: Option<string>)

  datatype Filter = Filter(
    ignoreSelectors: Option<seq<string>>,
    ignoreTags: Option<seq<string>>,
    skipCommonComponents: Option<bool>)

  /** `includeLocatorTag` is not declared by the configuration type but is
      passed by the current package's `init`; the spread carries it. */
  datatype RuntimeConfig = RuntimeConfig(
    highlight: Highlight,
    filter: Filter,
    showTagHint: Option<bool>,
    includeLocatorTag: Option<bool>)

  datatype HighlightPatch = HighlightPatch(color: Field<string>, labelTextColor: Field<string>, boxShadow: Field<string>)

  datatype FilterPatch = FilterPatch(
    ignoreSelectors: Field<seq<string>>,
    ignoreTags: Field<seq<string>>,
    skipCommonComponents: Field<bool>)

  datatype ConfigPatch = ConfigPatch(
    highlight: Field<HighlightPatch>,
    filter: Field<FilterPatch>,
    showTagHint: Field<bool>,
    includeLocatorTag: Field<bool>)

  const DefaultColor: string := "#77E1D5"
  const DefaultLabelText: string := "#222"
  const DefaultBoxShadow: string := "0 0 0 1px rgba(143, 253, 218, 0.3), 0 0 0 6px rgba(119,225,213,0.1)"

  /** The configuration before any update. */
  const Defaults: RuntimeConfig := RuntimeConfig(
    Highlight(Some(DefaultColor), Some(DefaultLabelText), Some(DefaultBoxShadow)),
    Filter(Some([]), Some([]), Some(false)),
    Some(true),
    None)

  const EmptyHighlightPatch := HighlightPatch(Absent, Absent, Absent)
  const EmptyFilterPatch := FilterPatch(Absent, Absent, Absent)
  const EmptyPatch := ConfigPatch(Absent, Absent, Absent, Absent)

  /** One key of a spread: a present key overwrites, an absent one keeps. */
  function Spread<T>(prev: Option<T>, f: Field<T>): (r: Option<T>)
    ensures f.Absent? ==> r == prev
    ensures f.Present? ==> r == f.value
  {
    match f
    case Absent => prev
    case Present(v) => v
  }

  function MergeHighlight(h: Highlight, p: HighlightPatch): Highlight {
    Highlight(Spread(h.color, p.color), Spread(h.labelTextColor, p.labelTextColor), Spread(h.boxShadow, p.boxShadow))
  }

  function MergeFilter(f: Filter, p: FilterPatch): Filter {
    Filter(
      Spread(f.ignoreSelectors, p.ignoreSelectors),
      Spread(f.ignoreTags, p.ignoreTags),
      Spread(f.skipCommonComponents, p.skipCommonComponents))
  }

  /** `partial.x ?? {}`: a missing or undefined nested patch merges nothing. */
  function NestedHighlight(f: Field<HighlightPatch>): HighlightPatch {
    if f.Present? && f.value.Some? then f.value.value else EmptyHighlightPatch
  }

  function NestedFilter(f: Field<FilterPatch>): FilterPatch {
    if f.Present? && f.value.Some? then f.value.value else EmptyFilterPatch
  }

  /** `updateConfig`: top-level spread, then `highlight` and `filter` merged
      key by key. */
  function UpdateConfig(cfg: RuntimeConfig, patch: ConfigPatch): (r: RuntimeConfig)
    ensures patch.showTagHint.Absent? ==> r.showTagHint == cfg.showTagHint
    ensures patch.showTagHint.Present? ==> r.showTagHint == patch.showTagHint.value
    ensures patch.includeLocatorTag.Absent? ==> r.includeLocatorTag == cfg.includeLocatorTag
    ensures patch.includeLocatorTag.Present? ==> r.includeLocatorTag == patch.includeLocatorTag.value
    ensures !(patch.highlight.Present? && patch.highlight.value.Some?) ==> r.highlight == cfg.highlight
    ensures !(patch.filter.Present? && patch.filter.value.Some?) ==> r.filter == cfg.filter
  {
    RuntimeConfig(
      MergeHighlight(cfg.highlight, NestedHighlight(patch.highlight)),
      MergeFilter(cfg.filter, NestedFilter(patch.filter)),
      Spread(cfg.showTagHint, patch.showTagHint),
      Spread(cfg.includeLocatorTag, patch.includeLocatorTag))
  }

  /** Nested keys: absent ones keep their old value, present ones (even with
      the value undefined) overwrite. */
  lemma NestedMergeKeywise(cfg: RuntimeConfig, h: HighlightPatch, f: FilterPatch, rest: ConfigPatch)
    ensures var r := UpdateConfig(cfg, rest.(highlight := Present(Some(h)), filter := Present(Some(f))));
      && (h.color.Absent? ==> r.highlight.color == cfg.highlight.color)
      && (h.color.Present? ==> r.highlight.color == h.color.value)
      && (h.labelTextColor.Absent? ==> r.highlight.labelTextColor == cfg.highlight.labelTextColor)
      && (h.labelTextColor.Present? ==> r.highlight.labelTextColor == h.labelTextColor.value)
      && (h.boxShadow.Absent? ==> r.highlight.boxShadow == cfg.highlight.boxShadow)
      && (h.boxShadow.Present? ==> r.highlight.boxShadow == h.boxShadow.value)
      && (f.ignoreSelectors.Absent? ==> r.filter.ignoreSelectors == cfg.filter.ignoreSelectors)
      && (f.ignoreSelectors.Present? ==> r.filter.ignoreSelectors == f.ignoreSelectors.value)
      && (f.ignoreTags.Absent? ==> r.filter.ignoreTags == cfg.filter.ignoreTags)
      && (f.ignoreTags.Present? ==> r.filter.ignoreTags == f.ignoreTags.value)
      && (f.skipCommonComponents.Absent? ==> r.filter.skipCommonComponents == cfg.filter.skipCommonComponents)
      && (f.skipCommonComponents.Present? ==> r.filter.skipCommonComponents == f.skipCommonComponents.value)
  {
  }

  /** The empty patch changes nothing. */
  lemma EmptyPatchIdentity(cfg: RuntimeConfig)
    ensures UpdateConfig(cfg, EmptyPatch) == cfg
  {
  }

  /** Applying a patch twice is the same as applying it once. */
  lemma UpdateIdempotent(cfg: RuntimeConfig, patch: ConfigPatch)
    ensures UpdateConfig(UpdateConfig(cfg, patch), patch) == UpdateConfig(cfg, patch)
  {
  }

  /** The defaults as the source states them. */
  lemma DefaultValues()
    ensures Defaults.highlight.color == Some("#77E1D5")
    ensures Defaults.highlight.labelTextColor == Some("#222")
    ensures Defaults.showTagHint == Some(true)
    ensures Defaults.filter.ignoreSelectors == Some([]) && Defaults.filter.ignoreTags == Some([])
    ensures Defaults.filter.skipCommonComponents == Some(false)
  {
  }

  /** The colours the overlay actually uses: the configured ones, or the
      defaults when they are undefined. */
  function EffectiveColor(cfg: RuntimeConfig): string {
    cfg.highlight.color.GetOr(DefaultColor)
  }

  function EffectiveLabelText(cfg: RuntimeConfig): string {
    cfg.highlight.labelTextColor.GetOr(DefaultLabelText)
  }

  /** JavaScript truthiness of an optional flag. */
  predicate Truthy(b: Option<bool>) {
    b == Some(true)
  }
}
