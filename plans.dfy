/** The pricing catalogue: a fixed list of categories, each with plans, and the
    slug lookups the pricing pages use. */
module Plans {
  import opened Wrappers

  datatype Plan = Plan(name: string, price: string, period: string, features: seq<string>, isPopular: bool, slug: string)

  datatype CustomPackage = CustomPackage(service: string, price: string)

  datatype ProductionService = ProductionService(title: string, price: string, isPopular: Option<bool>, slug: string)

  datatype PricingCategory = PricingCategory(
    title: string,
    slug: string,
    description: string,
    plans: seq<Plan>,
    customPackages: Option<seq<CustomPackage>>,
    productionServices: Option<seq<ProductionService>>)

  /** The add-on price list that the first three categories share. */
  const CustomPackages: seq<CustomPackage> := [
    CustomPackage("Social Media management", "Rs 500 per platform/month"),
    CustomPackage("Brand Video", "Rs 3000"),
    CustomPackage("Digital Gateway Board", "Rs "),
    CustomPackage("Social Media Boosting", "Rs"),
    CustomPackage("Product Video", "Rs 50 per product"),
    CustomPackage("Product Photoshoot", "Rs 20 per product"),
    CustomPackage("Online Store", "Free Registration"),
    CustomPackage("Content Design", "Rs 500 per Content"),
    CustomPackage("Portfolio Website", "Rs 10000")
  ]

  const ManufacturerPlans: seq<Plan> := [
    Plan("Plan A", "Rs 3,500", "/Month",
         ["FB/Insta Boost- 5$", "Social Media Management", "Social Media Contents-12 post", "All Festival Contents"],
         false, "plan-a"),
    Plan("Plan B", "Rs 6,060", "/Month",
         ["Fb/Insta boost-15$", "Social Media Contents-16 posts", "All festival contents", "Social media handling"],
         true, "plan-b"),
    Plan("Plan C", "Rs 13,460", "/Month",
         ["16 custom social media posts", "All Festival Contents", "Social media handling",
          "Social media boost- 26$", "Brand video content-1"],
         false, "plan-c")
  ]

  const DistributorPlans: seq<Plan> := [
    Plan("Plan A", "Rs 3,500", "/Month",
         ["FB/Insta Boost- 5$", "Social Media Management", "Social Media Contents-12 post", "All Festival Contents"],
         false, "plan-a"),
    Plan("Plan B", "Rs 6,060", "/Month",
         ["Fb/Insta boost-15$", "Social Media Contents-16 posts", "All festival contents", "Social media handling",
          "Online Store - 3 Month Free trial"],
         true, "plan-b"),
    Plan("Plan C", "Rs 13,460", "/Month",
         ["16 custom social media posts", "All Festival Contents", "Social media handling",
          "Social media boost- 26$", "Brand video content-1", "Online Store - Free Registration"],
         false, "plan-c")
  ]

  const OrganizationPlans: seq<Plan> := [
    Plan("Plan A", "Rs 3,500", "/Month",
         ["FB/Insta Boost- 5$", "Social Media Management", "Social Media Contents-12 post", "All Festival Contents"],
         false, "plan-a"),
    Plan("Plan B", "Rs 6,060", "/Month",
         ["Fb/Insta boost-15$", "Social Media Contents-16 posts", "All festival contents", "Social media handling"],
         true, "plan-b"),
    Plan("Plan C", "Rs 13,460", "/Month",
         ["16 custom social media posts", "All Festival Contents", "Social media Management",
          "Social media boost- 26$", "Brand video content-1"],
         false, "plan-c")
  ]

  const ProductionServices: seq<ProductionService> := [
    ProductionService("Brand Video with Content Creator", "NRS 6000 (INDOOR)\nNRS 7000 (OUTDOOR)", None, "brand-video-creator"),
    ProductionService("Brand Video without Content Creator only audio", "NRS 3000", None, "brand-video-audio"),
    ProductionService("Product Description with Content Creator (Inhouse)", "NRS 1250", None, "product-description-creator"),
    ProductionService("Product Description without Content Creator (Audio) (studio inhouse)", "NRS 750", None, "product-description-audio"),
    ProductionService("Product Video (studio inhouse)", "NRS 50 (Inhouse)", None, "product-video"),
    ProductionService("Product Photo (studio inhouse)", "NRS 20", None, "product-photo"),
    ProductionService("Conceptual Advertisement Video", "NRS 15000", None, "conceptual-ad"),
    ProductionService("Event Photo/Video", "NRS 3000", None, "event-media"),
    ProductionService("Reels/Tiktok videos", "NRS 90 per video", None, "social-video"),
    ProductionService("Product photo (model)", "NRS 70 per photo", None, "model-photo"),
    ProductionService("Wedding/Ceremonial", "NRS 35000", None, "wedding")
  ]

  /** `getPricingData()`. */
  function PricingData(): seq<PricingCategory> {
    [
      PricingCategory("Manufacturer Premium Plans", "manufacturer",
                      "Tailored pricing options for manufacturing businesses",
                      ManufacturerPlans, Some(CustomPackages), None),
      PricingCategory("Distributor Premium Plans", "distributor",
                      "Digital marketing solutions for distributors and retailers",
                      DistributorPlans, Some(CustomPackages), None),
      PricingCategory("Organization Premium Plans", "organization",
                      "Complete digital marketing solutions for organizations",
                      OrganizationPlans, Some(CustomPackages), None),
      PricingCategory("Production Premium Plans", "production",
                      "Video and content production solutions for your business",
                      [], None, Some(ProductionServices))
    ]
  }

  // ---------------------------------------------------------------------------
  // `Array.prototype.find` by slug

  /** The position of the first element whose slug is `slug`, if any. */
  function FindBySlug<T>(s: seq<T>, slugOf: T -> string, slug: string): (r: Option<nat>)
    ensures r.None? <==> forall j :: 0 <= j < |s| ==> slugOf(s[j]) != slug
    ensures r.Some? ==> r.value < |s| && slugOf(s[r.value]) == slug
    ensures r.Some? ==> forall j :: 0 <= j < r.value ==> slugOf(s[j]) != slug
  {
    if s == [] then None
    else if slugOf(s[0]) == slug then Some(0)
    else
      match FindBySlug(s[1..], slugOf, slug)
      case None => None
      case Some(i) => Some(i + 1)
  }

  /** Slugs that tell the elements of `s` apart. */
  predicate UniqueSlugs<T>(s: seq<T>, slugOf: T -> string) {
    forall i, j :: 0 <= i < j < |s| ==> slugOf(s[i]) != slugOf(s[j])
  }

  /** With unique slugs, looking up an element's slug finds that element. */
  lemma FindUniqueSlug<T>(s: seq<T>, slugOf: T -> string, i: nat)
    requires UniqueSlugs(s, slugOf) && i < |s|
    ensures FindBySlug(s, slugOf, slugOf(s[i])) == Some(i)
  {
  }

  function CategorySlug(c: PricingCategory): string { c.slug }
  function PlanSlug(p: Plan): string { p.slug }

  /** `getPlanDetails(category, planSlug)`: the first plan with `planSlug` in the
      first category with slug `category`, if both exist. */
  function PlanDetails(category: string, planSlug: string): (r: Option<Plan>)
    ensures r.Some? ==> r.value.slug == planSlug
    ensures r.Some? ==> exists c :: c in PricingData() && c.slug == category && r.value in c.plans
  {
    var data := PricingData();
    match FindBySlug(data, CategorySlug, category)
    case None => None
    case Some(ci) =>
      match FindBySlug(data[ci].plans, PlanSlug, planSlug)
      case None => None
      case Some(pi) => Some(data[ci].plans[pi])
  }

  /** `getCustomPackages()`: the first category's add-ons, which are the nine
      add-ons every plan category shares. */
  function GetCustomPackages(): (r: seq<CustomPackage>)
    ensures r == CustomPackages && |r| == 9
  {
    PricingData()[0].customPackages.GetOr([])
  }

  // ---------------------------------------------------------------------------
  // Facts about the catalogue

  /** Four categories, in this order. */
  lemma CategorySlugs()
    ensures |PricingData()| == 4
    ensures PricingData()[0].slug == "manufacturer" && PricingData()[1].slug == "distributor"
    ensures PricingData()[2].slug == "organization" && PricingData()[3].slug == "production"
    ensures UniqueSlugs(PricingData(), CategorySlug)
  {
  }

  /** Each of the first three categories offers Plan A, B and C under the slugs
      `plan-a`, `plan-b`, `plan-c`, and exactly Plan B is marked popular. */
  lemma PlanShape(k: nat)
    requires k < 3
    ensures var plans := PricingData()[k].plans;
            && |plans| == 3
            && plans[0].slug == "plan-a" && plans[1].slug == "plan-b" && plans[2].slug == "plan-c"
            && (forall j :: 0 <= j < 3 ==> (plans[j].isPopular <==> j == 1))
            && UniqueSlugs(plans, PlanSlug)
  {
  }

  /** The production category has no plans, eleven production services and no
      add-on list. */
  lemma ProductionShape()
    ensures PricingData()[3].plans == []
    ensures PricingData()[3].productionServices.Some? && |PricingData()[3].productionServices.value| == 11
    ensures PricingData()[3].customPackages.None?
  {
  }

  /** The first three categories carry the same add-on list. */
  lemma SharedCustomPackages()
    ensures forall k :: 0 <= k < 3 ==> PricingData()[k].customPackages == Some(CustomPackages)
  {
  }

  /** An unknown category finds nothing. */
  lemma UnknownCategory(category: string, planSlug: string)
    requires forall c :: c in PricingData() ==> c.slug != category
    ensures PlanDetails(category, planSlug).None?
  {
  }

  /** Nothing can be looked up under `production`: it has no plans. */
  lemma ProductionHasNoPlanDetails(planSlug: string)
    ensures PlanDetails("production", planSlug).None?
  {
    CategorySlugs();
    FindUniqueSlug(PricingData(), CategorySlug, 3);
  }

  /** Every plan of every category is found under its category's slug and its own. */
  lemma PlanDetailsFindsEveryPlan(k: nat, j: nat)
    requires k < |PricingData()| && j < |PricingData()[k].plans|
    ensures PlanDetails(PricingData()[k].slug, PricingData()[k].plans[j].slug) == Some(PricingData()[k].plans[j])
  {
    CategorySlugs();
    FindUniqueSlug(PricingData(), CategorySlug, k);
    PlanShape(k);
    FindUniqueSlug(PricingData()[k].plans, PlanSlug, j);
  }

  /** The popular plan of a category is what `plan-b` looks up there. */
  lemma PopularPlanLookup(category: string)
    requires category in {"manufacturer", "distributor", "organization"}
    ensures PlanDetails(category, "plan-b").Some? && PlanDetails(category, "plan-b").value.isPopular
  {
    CategorySlugs();
    var k := if category == "manufacturer" then 0 else if category == "distributor" then 1 else 2;
    PlanDetailsFindsEveryPlan(k, 1);
    PlanShape(k);
  }
}
