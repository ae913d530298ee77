// frontend/app/tools/pinterest-potential/page.tsx with the variant list of
// frontend/lib/tools/pinterestPotentialConfig.ts: the calculator page picks a
// variant from the `?variant=` query parameter and renders the component
// registered for it.
module VariantPage {
  import opened Results
  import opened Strings

  /** DEFAULT_VARIANT. */
  const DefaultVariant := "welcome"

  /** ALL_VARIANTS. */
  const AllVariants: seq<string> := ["welcome", "no_welcome"]

  /** The page components, named by the variant key they are registered under. */
  datatype Component = PinterestPotentialV1 | PinterestPotentialV2

  /** VARIANT_COMPONENTS: still keyed by the old variant names. */
  const VariantComponents: map<string, Component> := map["v1" := PinterestPotentialV1, "v2" := PinterestPotentialV2]

  /** resolvePinterestPotentialVariant: the lower-cased request when it names a variant, otherwise the default. */
  function ResolveVariant(requested: Option<string>): (v: string)
    ensures v in AllVariants
    ensures requested.Some? && Lower(requested.value) in AllVariants ==> v == Lower(requested.value)
    ensures requested.None? || Lower(requested.value) !in AllVariants ==> v == DefaultVariant
  {
    if requested.Some? && Lower(requested.value) != "" && Lower(requested.value) in AllVariants then Lower(requested.value)
    else DefaultVariant
  }

  /** The component the page renders, `None` when the variant has no entry. */
  function PageComponent(requested: Option<string>): Option<Component>
  {
    var variant := ResolveVariant(requested);
    if variant in VariantComponents then Some(VariantComponents[variant]) else None
  }

  /** The request's letter case does not matter. */
  lemma ResolveIgnoresCase(requested: string)
    ensures ResolveVariant(Some(requested)) == ResolveVariant(Some(Lower(requested)))
  {
    LowerIdempotent(requested);
  }

  /** "No_Welcome" selects "no_welcome"; no parameter, or an unknown one such as "v2", selects "welcome". */
  lemma ResolveExamples()
    ensures ResolveVariant(Some("No_Welcome")) == "no_welcome"
    ensures ResolveVariant(None) == "welcome"
    ensures ResolveVariant(Some("v2")) == "welcome"
  {
    assert Lower("No_Welcome") == "no_welcome";
    assert Lower("v2") == "v2";
  }

  /** Resolving a resolved variant gives it back. */
  lemma ResolveIdempotent(requested: Option<string>)
    ensures ResolveVariant(Some(ResolveVariant(requested))) == ResolveVariant(requested)
  {
    var v := ResolveVariant(requested);
    assert v == "welcome" || v == "no_welcome";
    assert Lower("welcome") == "welcome";
    assert Lower("no_welcome") == "no_welcome";
  }

  /** No variant the resolver can return has a component registered, so the page has nothing to render. */
  lemma NoComponentForResolvedVariant(requested: Option<string>)
    ensures PageComponent(requested) == None
  {
    var v := ResolveVariant(requested);
    assert v == "welcome" || v == "no_welcome";
    assert "welcome" !in VariantComponents;
    assert "no_welcome" !in VariantComponents;
  }

  /** The registration the page evidently intends, keyed by the current variant names as the newer flow page keys it. */
  const IntendedVariantComponents: map<string, Component> := map["welcome" := PinterestPotentialV1, "no_welcome" := PinterestPotentialV2]

  /** The component the page renders with the intended registration: the welcome variant is V1, the other V2. */
  function IntendedPageComponent(requested: Option<string>): (c: Component)
    ensures ResolveVariant(requested) == "welcome" <==> c == PinterestPotentialV1
    ensures ResolveVariant(requested) == "no_welcome" <==> c == PinterestPotentialV2
  {
    var variant := ResolveVariant(requested);
    assert variant == "welcome" || variant == "no_welcome";
    IntendedVariantComponents[variant]
  }

  /** With the intended registration every variant has a component, and the two variants render different ones. */
  lemma {:induction false} EveryVariantRenders()
    ensures forall v | v in AllVariants :: v in IntendedVariantComponents
    ensures IntendedPageComponent(None) == PinterestPotentialV1
    ensures IntendedPageComponent(Some("NO_WELCOME")) == PinterestPotentialV2
  {
    assert Lower("NO_WELCOME") == "no_welcome";
  }
}
