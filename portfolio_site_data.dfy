/**
 * The site's own service categories and projects (src/data/portfolioData.ts),
 * and what the portfolio queries return on them.
 *
 * Each project literal is written as two halves: its `Listing` (the fields
 * the queries read) and its `Content` (the texts, tags and video a card
 * shows). `PortfolioProjects` zips them back together. The facts about the
 * queries are proved for the listings with any contents, so the long texts
 * never enter those proofs.
 */
module PortfolioSiteData {
  import opened Wrappers
  import opened JsArray
  import opened PortfolioData

  function ServiceCategories(): seq<ServiceCategory> {
    [
      ServiceCategory("web-development", "Web Development", "\U{1F4BB}",
        ["E-commerce", "Portfolio/Landing Pages", "Business Websites", "Custom Web Apps"]),
      ServiceCategory("marketing", "Digital Marketing", "\U{1F4C8}",
        ["Life Coach Websites", "Agency Websites", "Marketing Funnels", "Lead Generation"]),
      ServiceCategory("chatbot", "AI Chatbot", "\U{1F916}",
        ["Customer Support Bots", "Sales Automation", "Lead Qualification", "FAQ Assistants"]),
      ServiceCategory("design", "UI/UX Design", "\U{1F3A8}",
        ["Mobile Apps", "Web Interfaces", "Brand Identity", "User Experience"])
    ]
  }

  /** The fields of a project that the queries read. */
  datatype Listing = Listing(id: int, primaryService: string, secondaryCategory: string, featured: bool)

  /** The fields of a project that only its card shows. */
  datatype Content = Content(title: string, description: string, image: string, link: string,
                             tags: seq<string>, video: Option<string>)

  function Dress(l: Listing, c: Content): Project {
    Project(l.id, c.title, c.description, c.image, c.link, c.tags,
            l.primaryService, l.secondaryCategory, l.featured, c.video)
  }

  /** Pairs listings with contents, as far as both go. */
  function DressAll(ls: seq<Listing>, cs: seq<Content>): (ps: seq<Project>)
    ensures |ps| == Min(|ls|, |cs|)
  {
    if ls == [] || cs == [] then [] else [Dress(ls[0], cs[0])] + DressAll(ls[1..], cs[1..])
  }

  function ListingIds(ls: seq<Listing>): seq<int> {
    seq(|ls|, i requires 0 <= i < |ls| => ls[i].id)
  }

  /** `portfolioProjects`. */
  function PortfolioProjects(): seq<Project> {
    DressAll(Listings(), Contents())
  }

  /** The listings of `portfolioProjects`, in the source's four groups. */
  function Listings(): seq<Listing> {
    WebDevelopmentListings() + MarketingListings() + ChatbotListings() + DesignListings()
  }

  /** The web development projects (ids 1-5). */
  function WebDevelopmentListings(): seq<Listing> {
    [
      Listing(1, "web-development", "Portfolio/Landing Pages", true),
      Listing(2, "web-development", "Portfolio/Landing Pages", false),
      Listing(3, "web-development", "E-commerce", false),
      Listing(4, "web-development", "Business Websites", false),
      Listing(5, "web-development", "Custom Web Apps", false)
    ]
  }

  /** The marketing projects (ids 6-9). */
  function MarketingListings(): seq<Listing> {
    [
      Listing(6, "marketing", "Life Coach Websites", false),
      Listing(7, "marketing", "Agency Websites", true),
      Listing(8, "marketing", "Marketing Funnels", false),
      Listing(9, "marketing", "Lead Generation", false)
    ]
  }

  /** The chatbot projects (ids 10-13). */
  function ChatbotListings(): seq<Listing> {
    [
      Listing(10, "chatbot", "Customer Support Bots", false),
      Listing(11, "chatbot", "Sales Automation", false),
      Listing(12, "chatbot", "Lead Qualification", false),
      Listing(13, "chatbot", "FAQ Assistants", false)
    ]
  }

  /** The design projects (ids 14-17). */
  function DesignListings(): seq<Listing> {
    [
      Listing(14, "design", "Mobile Apps", false),
      Listing(15, "design", "Web Interfaces", true),
      Listing(16, "design", "Brand Identity", false),
      Listing(17, "design", "User Experience", false)
    ]
  }

  /** The contents of `portfolioProjects`, in the same four groups as the listings. */
  function Contents(): seq<Content> {
    WebDevelopmentContents() + MarketingContents() + ChatbotContents() + DesignContents()
  }

  /** The contents of the web development projects (ids 1-5). */
  function WebDevelopmentContents(): seq<Content> {
    [
      Content("Nexus Growth Agency",
        "Modern landing page for a video editing agency with stunning animations and conversion-focused design.",
        "https://images.unsplash.com/photo-1460925895917-afdab827c52f?q=80&w=2426&auto=format&fit=crop",
        "https://nexusgrowthh.com/",
        ["React", "TypeScript", "Tailwind", "Framer Motion"],
        None),
      Content("Software Engineer Portfolio",
        "Clean and professional portfolio website showcasing technical skills and projects.",
        "https://images.unsplash.com/photo-1517077304055-6e89abbf09b0?q=80&w=2069&auto=format&fit=crop",
        "https://friendly-haupia-a1f91e.netlify.app/",
        ["React", "TypeScript", "Tailwind"],
        None),
      Content("E-commerce Fashion Store",
        "Full-featured online store with shopping cart, payment integration, and inventory management.",
        "https://images.unsplash.com/photo-1556742049-0cfed4f6a45d?q=80&w=2340&auto=format&fit=crop",
        "#",
        ["Next.js", "Stripe", "MongoDB", "Tailwind"],
        None),
      Content("Restaurant Management System",
        "Complete restaurant website with online ordering, table reservations, and menu management.",
        "https://images.unsplash.com/photo-1517248135467-4c7edcad34c4?q=80&w=2340&auto=format&fit=crop",
        "#",
        ["React", "Node.js", "PostgreSQL", "Stripe"],
        None),
      Content("Real Estate Platform",
        "Property listing platform with advanced search, virtual tours, and agent management.",
        "https://images.unsplash.com/photo-1560518883-ce09059eeffa?q=80&w=2340&auto=format&fit=crop",
        "#",
        ["Next.js", "Prisma", "PostgreSQL", "MapBox"],
        None)
    ]
  }

  /** The contents of the marketing projects (ids 6-9). */
  function MarketingContents(): seq<Content> {
    [
      Content("Life Coach Sarah Johnson",
        "Inspiring website for a life coach with booking system and client testimonials.",
        "https://images.unsplash.com/photo-1573496359142-b8d87734a5a2?q=80&w=2340&auto=format&fit=crop",
        "#",
        ["WordPress", "Elementor", "Calendly", "PayPal"],
        None),
      Content("Digital Marketing Agency",
        "Professional agency website showcasing services, case studies, and client success stories.",
        "https://images.unsplash.com/photo-1552664730-d307ca884978?q=80&w=2340&auto=format&fit=crop",
        "#",
        ["React", "Gatsby", "GraphQL", "Netlify CMS"],
        None),
      Content("Sales Funnel for SaaS",
        "High-converting sales funnel with lead magnets, email sequences, and conversion tracking.",
        "https://images.unsplash.com/photo-1551288049-bebda4e38f71?q=80&w=2340&auto=format&fit=crop",
        "#",
        ["ClickFunnels", "Mailchimp", "Google Analytics", "Zapier"],
        None),
      Content("Lead Generation Landing Page",
        "Optimized landing page for lead generation with A/B tested elements and form optimization.",
        "https://images.unsplash.com/photo-1460925895917-afdab827c52f?q=80&w=2340&auto=format&fit=crop",
        "#",
        ["HTML", "CSS", "JavaScript", "Unbounce"],
        None)
    ]
  }

  /** The contents of the chatbot projects (ids 10-13). */
  function ChatbotContents(): seq<Content> {
    [
      Content("Customer Support AI Assistant",
        "Intelligent chatbot handling customer inquiries with natural language processing.",
        "https://images.unsplash.com/photo-1531746790731-6c087fecd65a?q=80&w=2106&auto=format&fit=crop",
        "#",
        ["OpenAI", "Node.js", "WebSocket", "MongoDB"],
        Some("https://drive.google.com/file/d/1f2pgrJMDR4XuYu2RnQ8UYm9pYY7XdR6V/preview")),
      Content("Sales Automation Bot",
        "AI-powered sales assistant that qualifies leads and schedules appointments automatically.",
        "https://images.unsplash.com/photo-1551434678-e076c223a692?q=80&w=2340&auto=format&fit=crop",
        "#",
        ["Dialogflow", "Firebase", "Calendly API", "Slack"],
        None),
      Content("Lead Qualification Chatbot",
        "Smart chatbot that qualifies leads through conversational forms and integrates with CRM.",
        "https://images.unsplash.com/photo-1556761175-b413da4baf72?q=80&w=2340&auto=format&fit=crop",
        "#",
        ["Botpress", "HubSpot API", "React", "Express"],
        None),
      Content("FAQ Assistant Bot",
        "Intelligent FAQ bot that provides instant answers and reduces support ticket volume.",
        "https://images.unsplash.com/photo-1485827404703-89b55fcc595e?q=80&w=2340&auto=format&fit=crop",
        "#",
        ["Microsoft Bot Framework", "LUIS", "Azure", "Teams"],
        None)
    ]
  }

  /** The contents of the design projects (ids 14-17). */
  function DesignContents(): seq<Content> {
    [
      Content("Fitness Mobile App UI",
        "Modern and intuitive mobile app design for fitness tracking and workout planning.",
        "https://images.unsplash.com/photo-1512941937669-90a1b58e7e9c?q=80&w=2340&auto=format&fit=crop",
        "#",
        ["Figma", "Sketch", "Principle", "InVision"],
        None),
      Content("SaaS Dashboard Interface",
        "Clean and functional dashboard design for a project management SaaS platform.",
        "https://images.unsplash.com/photo-1551650975-87deedd944c3?q=80&w=2340&auto=format&fit=crop",
        "#",
        ["Figma", "Adobe XD", "Zeplin", "Storybook"],
        None),
      Content("Tech Startup Brand Identity",
        "Complete brand identity design including logo, color palette, and brand guidelines.",
        "https://images.unsplash.com/photo-1558655146-d09347e92766?q=80&w=2340&auto=format&fit=crop",
        "#",
        ["Adobe Illustrator", "Photoshop", "InDesign", "Brand Guidelines"],
        None),
      Content("E-learning Platform UX",
        "User experience design for an online learning platform with focus on engagement and retention.",
        "https://images.unsplash.com/photo-1522202176988-66273c2fd55f?q=80&w=2340&auto=format&fit=crop",
        "#",
        ["User Research", "Wireframing", "Prototyping", "Usability Testing"],
        None)
    ]
  }

  lemma {:induction false} ListingIdsAppend(a: seq<Listing>, b: seq<Listing>)
    ensures ListingIds(a + b) == ListingIds(a) + ListingIds(b)
  {
  }

  /**
   * A test that reads only the listing half of a project selects, among
   * dressed projects, exactly the ids it selects among the listings.
   */
  lemma {:induction false} FilterDressed(ls: seq<Listing>, cs: seq<Content>, f: Project -> bool, g: Listing -> bool)
    requires |ls| <= |cs|
    requires forall l, c :: f(Dress(l, c)) == g(l)
    ensures Ids(Filter(DressAll(ls, cs), f)) == ListingIds(Filter(ls, g))
  {
    if ls != [] {
      var p, rest := Dress(ls[0], cs[0]), DressAll(ls[1..], cs[1..]);
      assert DressAll(ls, cs) == [p] + rest;
      assert f(p) == g(ls[0]);
      FilterDressed(ls[1..], cs[1..], f, g);
      var head := if f(p) then [p] else [];
      var lhead := if g(ls[0]) then [ls[0]] else [];
      assert Filter(DressAll(ls, cs), f) == head + Filter(rest, f);
      assert Filter(ls, g) == lhead + Filter(ls[1..], g);
      IdsAppend(head, Filter(rest, f));
      ListingIdsAppend(lhead, Filter(ls[1..], g));
    }
  }

  /** `FilterDressed` over four consecutive groups of listings, given what the test selects in each. */
  lemma DressedOfFour(w: seq<Listing>, m: seq<Listing>, c: seq<Listing>, d: seq<Listing>, cs: seq<Content>,
                      f: Project -> bool, g: Listing -> bool,
                      iw: seq<int>, im: seq<int>, ic: seq<int>, id: seq<int>, ids: seq<int>)
    requires |w + m + c + d| <= |cs|
    requires forall l, x :: f(Dress(l, x)) == g(l)
    requires ListingIds(Filter(w, g)) == iw && ListingIds(Filter(m, g)) == im
    requires ListingIds(Filter(c, g)) == ic && ListingIds(Filter(d, g)) == id
    requires iw + im + ic + id == ids
    ensures Ids(Filter(DressAll(w + m + c + d, cs), f)) == ids
  {
    FilterDressed(w + m + c + d, cs, f, g);
    FilterAppend(w + m + c, d, g);
    FilterAppend(w + m, c, g);
    FilterAppend(w, m, g);
    ListingIdsAppend(Filter(w, g) + Filter(m, g) + Filter(c, g), Filter(d, g));
    ListingIdsAppend(Filter(w, g) + Filter(m, g), Filter(c, g));
    ListingIdsAppend(Filter(w, g), Filter(m, g));
  }

  predicate ListingFeatured(l: Listing) { l.featured }

  predicate ListingNotFeatured(l: Listing) { !l.featured }

  function ListingIn(serviceId: string, category: string): Listing -> bool {
    (l: Listing) => l.primaryService == serviceId && l.secondaryCategory == category
  }

  /** What each query selects in each group of listings. */
  lemma FeaturedListings()
    ensures ListingIds(Filter(WebDevelopmentListings(), ListingFeatured)) == [1]
    ensures ListingIds(Filter(MarketingListings(), ListingFeatured)) == [7]
    ensures ListingIds(Filter(ChatbotListings(), ListingFeatured)) == []
    ensures ListingIds(Filter(DesignListings(), ListingFeatured)) == [15]
  {
  }

  lemma NonFeaturedListingsFirstHalf()
    ensures ListingIds(Filter(WebDevelopmentListings(), ListingNotFeatured)) == [2, 3, 4, 5]
    ensures ListingIds(Filter(MarketingListings(), ListingNotFeatured)) == [6, 8, 9]
  {
  }

  lemma NonFeaturedListingsSecondHalf()
    ensures ListingIds(Filter(ChatbotListings(), ListingNotFeatured)) == [10, 11, 12, 13]
    ensures ListingIds(Filter(DesignListings(), ListingNotFeatured)) == [14, 16, 17]
  {
  }

  lemma EcommerceWebListings()
    ensures ListingIds(Filter(WebDevelopmentListings(), ListingIn("web-development", "E-commerce"))) == [3]
    ensures ListingIds(Filter(MarketingListings(), ListingIn("web-development", "E-commerce"))) == []
    ensures ListingIds(Filter(ChatbotListings(), ListingIn("web-development", "E-commerce"))) == []
    ensures ListingIds(Filter(DesignListings(), ListingIn("web-development", "E-commerce"))) == []
  {
  }

  /** The default view of any seventeen projects whose featured and other ids are those of the site's data. */
  lemma MixedOfSeventeen(ps: seq<Project>)
    requires |ps| == 17
    requires Ids(GetFeaturedProjects(ps)) == [1, 7, 15]
    requires Ids(GetNonFeaturedProjects(ps)) == [2, 3, 4, 5, 6, 8, 9, 10, 11, 12, 13, 14, 16, 17]
    ensures Ids(MixedProjects(ps)) == [1, 7, 15, 2, 3, 4, 5, 6, 8, 9, 10, 11]
  {
    var f, n := GetFeaturedProjects(ps), GetNonFeaturedProjects(ps);
    assert |f| == 3;
    assert MixedFill(ps) == 9;
    IdsTake(n, 9);
    IdsAppend(f, n[..9]);
  }

  /** The site's featured projects are those with ids 1, 7 and 15, in that order, whatever their contents. */
  lemma FeaturedOnSiteData(cs: seq<Content>)
    requires |cs| == 17
    ensures Ids(GetFeaturedProjects(DressAll(Listings(), cs))) == [1, 7, 15]
  {
    var w, m, c, d := WebDevelopmentListings(), MarketingListings(), ChatbotListings(), DesignListings();
    assert |w + m + c + d| == 17;
    FeaturedListings();
    DressedOfFour(w, m, c, d, cs, IsFeatured, ListingFeatured, [1], [7], [], [15], [1, 7, 15]);
  }

  /** The other fourteen projects keep their order in the list. */
  lemma NonFeaturedOnSiteData(cs: seq<Content>)
    requires |cs| == 17
    ensures Ids(GetNonFeaturedProjects(DressAll(Listings(), cs))) ==
      [2, 3, 4, 5, 6, 8, 9, 10, 11, 12, 13, 14, 16, 17]
  {
    var w, m, c, d := WebDevelopmentListings(), MarketingListings(), ChatbotListings(), DesignListings();
    assert |w + m + c + d| == 17;
    assert [2, 3, 4, 5] + [6, 8, 9] + [10, 11, 12, 13] + [14, 16, 17] == [2, 3, 4, 5, 6, 8, 9, 10, 11, 12, 13, 14, 16, 17];
    NonFeaturedListingsFirstHalf();
    NonFeaturedListingsSecondHalf();
    DressedOfFour(w, m, c, d, cs, IsNotFeatured, ListingNotFeatured, [2, 3, 4, 5], [6, 8, 9], [10, 11, 12, 13], [14, 16, 17],
                  [2, 3, 4, 5, 6, 8, 9, 10, 11, 12, 13, 14, 16, 17]);
  }

  /**
   * The site's default view: the three featured projects, then nine others,
   * so twelve in all; projects 12, 13, 14, 16 and 17 are not shown.
   */
  lemma MixedProjectsOnSiteData(cs: seq<Content>)
    requires |cs| == 17
    ensures Ids(MixedProjects(DressAll(Listings(), cs))) == [1, 7, 15, 2, 3, 4, 5, 6, 8, 9, 10, 11]
  {
    FeaturedOnSiteData(cs);
    NonFeaturedOnSiteData(cs);
    MixedOfSeventeen(DressAll(Listings(), cs));
  }

  /** Only project 3 is a web development project in the E-commerce category. */
  lemma WebDevelopmentEcommerceOnSiteData(cs: seq<Content>)
    requires |cs| == 17
    ensures Ids(GetProjectsByServiceAndCategory(DressAll(Listings(), cs), "web-development", "E-commerce")) == [3]
  {
    var w, m, c, d := WebDevelopmentListings(), MarketingListings(), ChatbotListings(), DesignListings();
    assert |w + m + c + d| == 17;
    EcommerceWebListings();
    DressedOfFour(w, m, c, d, cs, ServiceAndCategoryAre("web-development", "E-commerce"),
                  ListingIn("web-development", "E-commerce"), [3], [], [], [], [3]);
  }

  /** Each web development project sits under the first service button, and its category is one of that service's category buttons. */
  lemma WebDevelopmentCategoriesOffered()
    ensures forall l :: l in WebDevelopmentListings() ==>
      l.primaryService == ServiceCategories()[0].id && l.secondaryCategory in ServiceCategories()[0].subcategories
  {
  }

  /** Each marketing project sits under the second service button, and its category is one of that service's category buttons. */
  lemma MarketingCategoriesOffered()
    ensures forall l :: l in MarketingListings() ==>
      l.primaryService == ServiceCategories()[1].id && l.secondaryCategory in ServiceCategories()[1].subcategories
  {
  }

  /** Each chatbot project sits under the third service button, and its category is one of that service's category buttons. */
  lemma ChatbotCategoriesOffered()
    ensures forall l :: l in ChatbotListings() ==>
      l.primaryService == ServiceCategories()[2].id && l.secondaryCategory in ServiceCategories()[2].subcategories
  {
  }

  /** Each design project sits under the fourth service button, and its category is one of that service's category buttons. */
  lemma DesignCategoriesOffered()
    ensures forall l :: l in DesignListings() ==>
      l.primaryService == ServiceCategories()[3].id && l.secondaryCategory in ServiceCategories()[3].subcategories
  {
  }
}
