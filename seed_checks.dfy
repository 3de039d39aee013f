/**
 * Facts about the three seed templates as the renderer sees them: which
 * derived tokens occur in each body, where `{{TITLE}}` and the block
 * markers are, and why the toggles' tokens match nothing; and the
 * sections the control panel shows for each of them.
 */
module SeedChecks {
  import opened Strings
  import opened Templates
  import opened EmailPreview
  import opened ControlPanel

  /** Computes a concrete token name from the position of the first `-`. */
  lemma TokenNameOf(id: string, k: nat, upper: string, name: string)
    requires k < |id| && id[k] == '-' && '-' !in id[..k]
    requires Upper(id) == upper && upper[k := '_'] == name
    ensures TokenName(id) == name
  {
    TokenNameAt(id, k);
  }

  /** The `j`-th placeholder of a woven body occurs in it. */
  lemma PlaceholderInBody(t: TemplateData, statics: seq<string>, names: seq<string>, j: nat, name: string)
    requires |statics| == |names| + 1 && j < |names|
    requires t.htmlTemplate == Weave(statics, names, 0) && names[j] == name
    ensures Occurs(t.htmlTemplate, Placeholder(name))
  {
    WeaveOccurs(statics, names, 0, j);
  }

  /**
   * The all-underscore form of an id (every `-` becomes `_`), which the
   * block markers of the seed bodies use. The renderer never derives it.
   */
  function MarkerName(id: string): (n: string)
    ensures |n| == |id| && '-' !in n
  {
    seq(|id|, i requires 0 <= i < |id| => if id[i] == '-' then '_' else UpperChar(id[i]))
  }

  /** A field whose token name is the `j`-th placeholder of a woven body has its token in the body. */
  lemma TokenInBody(t: TemplateData, statics: seq<string>, names: seq<string>, j: nat, id: string)
    requires |statics| == |names| + 1 && j < |names|
    requires t.htmlTemplate == Weave(statics, names, 0) && TokenName(id) == names[j]
    ensures Occurs(t.htmlTemplate, Token(id))
  {
    WeaveOccurs(statics, names, 0, j);
  }

  // ---------------------------------------------------------------------
  // newsletter-basic
  // ---------------------------------------------------------------------

  lemma HeaderImagePlain()
    ensures PlainId("header-image")
  {
    NotAllDigitsAt("header-image", 0);
  }

  lemma HeaderImageToken()
    ensures TokenName("header-image") == "HEADER_IMAGE"
  {
    TokenNameOf("header-image", 6, "HEADER-IMAGE", "HEADER_IMAGE");
  }

  lemma HeaderLinkPlain()
    ensures PlainId("header-link")
  {
    NotAllDigitsAt("header-link", 0);
  }

  lemma HeaderLinkToken()
    ensures TokenName("header-link") == "HEADER_LINK"
  {
    TokenNameOf("header-link", 6, "HEADER-LINK", "HEADER_LINK");
  }

  lemma MainContentPlain()
    ensures PlainId("main-content")
  {
    NotAllDigitsAt("main-content", 0);
  }

  lemma MainContentToken()
    ensures TokenName("main-content") == "MAIN_CONTENT"
  {
    TokenNameOf("main-content", 4, "MAIN-CONTENT", "MAIN_CONTENT");
  }

  lemma ShowOptionalSectionPlain()
    ensures PlainId("show-optional-section")
  {
    NotAllDigitsAt("show-optional-section", 0);
  }

  lemma ShowOptionalSectionMarker()
    ensures MarkerName("show-optional-section") == "SHOW_OPTIONAL_SECTION"
  {
  }

  lemma ShowOptionalSectionToken()
    ensures TokenName("show-optional-section") == "SHOW_OPTIONAL-SECTION"
  {
    TokenNameOf("show-optional-section", 4, "SHOW-OPTIONAL-SECTION", "SHOW_OPTIONAL-SECTION");
  }

  lemma OptionalContentPlain()
    ensures PlainId("optional-content")
  {
    NotAllDigitsAt("optional-content", 0);
  }

  lemma OptionalContentToken()
    ensures TokenName("optional-content") == "OPTIONAL_CONTENT"
  {
    TokenNameOf("optional-content", 8, "OPTIONAL-CONTENT", "OPTIONAL_CONTENT");
  }

  lemma FooterContentPlain()
    ensures PlainId("footer-content")
  {
    NotAllDigitsAt("footer-content", 0);
  }

  lemma FooterContentToken()
    ensures TokenName("footer-content") == "FOOTER_CONTENT"
  {
    TokenNameOf("footer-content", 6, "FOOTER-CONTENT", "FOOTER_CONTENT");
  }

  lemma HeaderImageOccurs()
    ensures Occurs(Newsletter.htmlTemplate, Token(Newsletter.fields[0].id))
  {
    NewsletterShape();
    NewsletterBodyWoven();
    HeaderImageToken();
    TokenInBody(Newsletter, NewsletterStatics, NewsletterPlaceholders, 2, "header-image");
  }

  lemma HeaderLinkOccurs()
    ensures Occurs(Newsletter.htmlTemplate, Token(Newsletter.fields[1].id))
  {
    NewsletterShape();
    NewsletterBodyWoven();
    HeaderLinkToken();
    TokenInBody(Newsletter, NewsletterStatics, NewsletterPlaceholders, 1, "header-link");
  }

  lemma MainContentOccurs()
    ensures Occurs(Newsletter.htmlTemplate, Token(Newsletter.fields[2].id))
  {
    NewsletterShape();
    NewsletterBodyWoven();
    MainContentToken();
    TokenInBody(Newsletter, NewsletterStatics, NewsletterPlaceholders, 3, "main-content");
  }

  lemma OptionalContentOccurs()
    ensures Occurs(Newsletter.htmlTemplate, Token(Newsletter.fields[4].id))
  {
    NewsletterShape();
    NewsletterBodyWoven();
    OptionalContentToken();
    TokenInBody(Newsletter, NewsletterStatics, NewsletterPlaceholders, 5, "optional-content");
  }

  lemma FooterContentOccurs()
    ensures Occurs(Newsletter.htmlTemplate, Token(Newsletter.fields[5].id))
  {
    NewsletterShape();
    NewsletterBodyWoven();
    FooterContentToken();
    TokenInBody(Newsletter, NewsletterStatics, NewsletterPlaceholders, 7, "footer-content");
  }

  /** Every non-toggle field of `newsletter-basic` has its token in the body. */
  lemma NewsletterTokensOccur()
    ensures forall i :: 0 <= i < |Newsletter.fields| && Newsletter.fields[i].kind != Toggle ==>
      Occurs(Newsletter.htmlTemplate, Token(Newsletter.fields[i].id))
  {
    NewsletterShape();
    forall i | 0 <= i < |Newsletter.fields| && Newsletter.fields[i].kind != Toggle
      ensures Occurs(Newsletter.htmlTemplate, Token(Newsletter.fields[i].id))
    {
      if i == 0 { HeaderImageOccurs(); }
      else if i == 1 { HeaderLinkOccurs(); }
      else if i == 2 { MainContentOccurs(); }
      else if i == 4 { OptionalContentOccurs(); }
      else { FooterContentOccurs(); }
    }
  }

  // ---------------------------------------------------------------------
  // promotional
  // ---------------------------------------------------------------------

  lemma HeroImagePlain()
    ensures PlainId("hero-image")
  {
    NotAllDigitsAt("hero-image", 0);
  }

  lemma HeroImageToken()
    ensures TokenName("hero-image") == "HERO_IMAGE"
  {
    TokenNameOf("hero-image", 4, "HERO-IMAGE", "HERO_IMAGE");
  }

  lemma CtaLinkPlain()
    ensures PlainId("cta-link")
  {
    NotAllDigitsAt("cta-link", 0);
  }

  lemma CtaLinkToken()
    ensures TokenName("cta-link") == "CTA_LINK"
  {
    TokenNameOf("cta-link", 3, "CTA-LINK", "CTA_LINK");
  }

  lemma PromotionalContentPlain()
    ensures PlainId("promotional-content")
  {
    NotAllDigitsAt("promotional-content", 0);
  }

  lemma PromotionalContentToken()
    ensures TokenName("promotional-content") == "PROMOTIONAL_CONTENT"
  {
    TokenNameOf("promotional-content", 11, "PROMOTIONAL-CONTENT", "PROMOTIONAL_CONTENT");
  }

  lemma ShowBonusSectionPlain()
    ensures PlainId("show-bonus-section")
  {
    NotAllDigitsAt("show-bonus-section", 0);
  }

  lemma ShowBonusSectionMarker()
    ensures MarkerName("show-bonus-section") == "SHOW_BONUS_SECTION"
  {
  }

  lemma ShowBonusSectionToken()
    ensures TokenName("show-bonus-section") == "SHOW_BONUS-SECTION"
  {
    TokenNameOf("show-bonus-section", 4, "SHOW-BONUS-SECTION", "SHOW_BONUS-SECTION");
  }

  lemma BonusContentPlain()
    ensures PlainId("bonus-content")
  {
    NotAllDigitsAt("bonus-content", 0);
  }

  lemma BonusContentToken()
    ensures TokenName("bonus-content") == "BONUS_CONTENT"
  {
    TokenNameOf("bonus-content", 5, "BONUS-CONTENT", "BONUS_CONTENT");
  }

  lemma FooterPromoPlain()
    ensures PlainId("footer-promo")
  {
    NotAllDigitsAt("footer-promo", 0);
  }

  lemma FooterPromoToken()
    ensures TokenName("footer-promo") == "FOOTER_PROMO"
  {
    TokenNameOf("footer-promo", 6, "FOOTER-PROMO", "FOOTER_PROMO");
  }

  lemma HeroImageOccurs()
    ensures Occurs(Promotional.htmlTemplate, Token(Promotional.fields[0].id))
  {
    PromotionalShape();
    PromotionalBodyWoven();
    HeroImageToken();
    TokenInBody(Promotional, PromotionalStatics, PromotionalPlaceholders, 2, "hero-image");
  }

  lemma CtaLinkOccurs()
    ensures Occurs(Promotional.htmlTemplate, Token(Promotional.fields[1].id))
  {
    PromotionalShape();
    PromotionalBodyWoven();
    CtaLinkToken();
    TokenInBody(Promotional, PromotionalStatics, PromotionalPlaceholders, 1, "cta-link");
  }

  lemma PromotionalContentOccurs()
    ensures Occurs(Promotional.htmlTemplate, Token(Promotional.fields[2].id))
  {
    PromotionalShape();
    PromotionalBodyWoven();
    PromotionalContentToken();
    TokenInBody(Promotional, PromotionalStatics, PromotionalPlaceholders, 3, "promotional-content");
  }

  lemma BonusContentOccurs()
    ensures Occurs(Promotional.htmlTemplate, Token(Promotional.fields[4].id))
  {
    PromotionalShape();
    PromotionalBodyWoven();
    BonusContentToken();
    TokenInBody(Promotional, PromotionalStatics, PromotionalPlaceholders, 5, "bonus-content");
  }

  lemma FooterPromoOccurs()
    ensures Occurs(Promotional.htmlTemplate, Token(Promotional.fields[5].id))
  {
    PromotionalShape();
    PromotionalBodyWoven();
    FooterPromoToken();
    TokenInBody(Promotional, PromotionalStatics, PromotionalPlaceholders, 7, "footer-promo");
  }

  /** Every non-toggle field of `promotional` has its token in the body. */
  lemma PromotionalTokensOccur()
    ensures forall i :: 0 <= i < |Promotional.fields| && Promotional.fields[i].kind != Toggle ==>
      Occurs(Promotional.htmlTemplate, Token(Promotional.fields[i].id))
  {
    PromotionalShape();
    forall i | 0 <= i < |Promotional.fields| && Promotional.fields[i].kind != Toggle
      ensures Occurs(Promotional.htmlTemplate, Token(Promotional.fields[i].id))
    {
      if i == 0 { HeroImageOccurs(); }
      else if i == 1 { CtaLinkOccurs(); }
      else if i == 2 { PromotionalContentOccurs(); }
      else if i == 4 { BonusContentOccurs(); }
      else { FooterPromoOccurs(); }
    }
  }

  // ---------------------------------------------------------------------
  // welcome-series
  // ---------------------------------------------------------------------

  lemma WelcomeImagePlain()
    ensures PlainId("welcome-image")
  {
    NotAllDigitsAt("welcome-image", 0);
  }

  lemma WelcomeImageToken()
    ensures TokenName("welcome-image") == "WELCOME_IMAGE"
  {
    TokenNameOf("welcome-image", 7, "WELCOME-IMAGE", "WELCOME_IMAGE");
  }

  lemma CompanyLinkPlain()
    ensures PlainId("company-link")
  {
    NotAllDigitsAt("company-link", 0);
  }

  lemma CompanyLinkToken()
    ensures TokenName("company-link") == "COMPANY_LINK"
  {
    TokenNameOf("company-link", 7, "COMPANY-LINK", "COMPANY_LINK");
  }

  lemma WelcomeMessagePlain()
    ensures PlainId("welcome-message")
  {
    NotAllDigitsAt("welcome-message", 0);
  }

  lemma WelcomeMessageToken()
    ensures TokenName("welcome-message") == "WELCOME_MESSAGE"
  {
    TokenNameOf("welcome-message", 7, "WELCOME-MESSAGE", "WELCOME_MESSAGE");
  }

  lemma ShowGettingStartedPlain()
    ensures PlainId("show-getting-started")
  {
    NotAllDigitsAt("show-getting-started", 0);
  }

  lemma ShowGettingStartedMarker()
    ensures MarkerName("show-getting-started") == "SHOW_GETTING_STARTED"
  {
  }

  lemma ShowGettingStartedToken()
    ensures TokenName("show-getting-started") == "SHOW_GETTING-STARTED"
  {
    TokenNameOf("show-getting-started", 4, "SHOW-GETTING-STARTED", "SHOW_GETTING-STARTED");
  }

  lemma GettingStartedPlain()
    ensures PlainId("getting-started")
  {
    NotAllDigitsAt("getting-started", 0);
  }

  lemma GettingStartedToken()
    ensures TokenName("getting-started") == "GETTING_STARTED"
  {
    TokenNameOf("getting-started", 7, "GETTING-STARTED", "GETTING_STARTED");
  }

  lemma WelcomeFooterPlain()
    ensures PlainId("welcome-footer")
  {
    NotAllDigitsAt("welcome-footer", 0);
  }

  lemma WelcomeFooterToken()
    ensures TokenName("welcome-footer") == "WELCOME_FOOTER"
  {
    TokenNameOf("welcome-footer", 7, "WELCOME-FOOTER", "WELCOME_FOOTER");
  }

  lemma WelcomeImageOccurs()
    ensures Occurs(WelcomeSeries.htmlTemplate, Token(WelcomeSeries.fields[0].id))
  {
    WelcomeSeriesShape();
    WelcomeSeriesBodyWoven();
    WelcomeImageToken();
    TokenInBody(WelcomeSeries, WelcomeSeriesStatics, WelcomeSeriesPlaceholders, 2, "welcome-image");
  }

  lemma CompanyLinkOccurs()
    ensures Occurs(WelcomeSeries.htmlTemplate, Token(WelcomeSeries.fields[1].id))
  {
    WelcomeSeriesShape();
    WelcomeSeriesBodyWoven();
    CompanyLinkToken();
    TokenInBody(WelcomeSeries, WelcomeSeriesStatics, WelcomeSeriesPlaceholders, 1, "company-link");
  }

  lemma WelcomeMessageOccurs()
    ensures Occurs(WelcomeSeries.htmlTemplate, Token(WelcomeSeries.fields[2].id))
  {
    WelcomeSeriesShape();
    WelcomeSeriesBodyWoven();
    WelcomeMessageToken();
    TokenInBody(WelcomeSeries, WelcomeSeriesStatics, WelcomeSeriesPlaceholders, 3, "welcome-message");
  }

  lemma GettingStartedOccurs()
    ensures Occurs(WelcomeSeries.htmlTemplate, Token(WelcomeSeries.fields[4].id))
  {
    WelcomeSeriesShape();
    WelcomeSeriesBodyWoven();
    GettingStartedToken();
    TokenInBody(WelcomeSeries, WelcomeSeriesStatics, WelcomeSeriesPlaceholders, 5, "getting-started");
  }

  lemma WelcomeFooterOccurs()
    ensures Occurs(WelcomeSeries.htmlTemplate, Token(WelcomeSeries.fields[5].id))
  {
    WelcomeSeriesShape();
    WelcomeSeriesBodyWoven();
    WelcomeFooterToken();
    TokenInBody(WelcomeSeries, WelcomeSeriesStatics, WelcomeSeriesPlaceholders, 7, "welcome-footer");
  }

  /** Every non-toggle field of `welcome-series` has its token in the body. */
  lemma WelcomeSeriesTokensOccur()
    ensures forall i :: 0 <= i < |WelcomeSeries.fields| && WelcomeSeries.fields[i].kind != Toggle ==>
      Occurs(WelcomeSeries.htmlTemplate, Token(WelcomeSeries.fields[i].id))
  {
    WelcomeSeriesShape();
    forall i | 0 <= i < |WelcomeSeries.fields| && WelcomeSeries.fields[i].kind != Toggle
      ensures Occurs(WelcomeSeries.htmlTemplate, Token(WelcomeSeries.fields[i].id))
    {
      if i == 0 { WelcomeImageOccurs(); }
      else if i == 1 { CompanyLinkOccurs(); }
      else if i == 2 { WelcomeMessageOccurs(); }
      else if i == 4 { GettingStartedOccurs(); }
      else { WelcomeFooterOccurs(); }
    }
  }

  /** Every field id of `newsletter-basic` is plain. */
  lemma NewsletterPlainIds()
    ensures forall i :: 0 <= i < |Newsletter.fields| ==> PlainId(Newsletter.fields[i].id)
  {
    NewsletterShape();
    forall i | 0 <= i < |Newsletter.fields|
      ensures PlainId(Newsletter.fields[i].id)
    {
      if i == 0 { HeaderImagePlain(); }
      else if i == 1 { HeaderLinkPlain(); }
      else if i == 2 { MainContentPlain(); }
      else if i == 3 { ShowOptionalSectionPlain(); }
      else if i == 4 { OptionalContentPlain(); }
      else { FooterContentPlain(); }
    }
  }

  /** `{{TITLE}}` is the first placeholder of the `newsletter-basic` body and no other. */
  lemma NewsletterTitleOnce()
    ensures NewsletterPlaceholders[0] == "TITLE" && multiset(NewsletterPlaceholders)["TITLE"] == 1
  {
  }

  lemma NewsletterTitleOccurs()
    ensures Occurs(Newsletter.htmlTemplate, Placeholder("TITLE"))
  {
    NewsletterBodyWoven();
    PlaceholderInBody(Newsletter, NewsletterStatics, NewsletterPlaceholders, 0, "TITLE");
  }

  /** The token name the `newsletter-basic` toggle derives is no placeholder of the body. */
  lemma NewsletterToggleUnmatched()
    ensures Newsletter.fields[3].kind == Toggle
    ensures TokenName(Newsletter.fields[3].id) !in NewsletterPlaceholders
  {
    NewsletterShape();
    ShowOptionalSectionToken();
    assert "SHOW_OPTIONAL-SECTION" !in NewsletterPlaceholders;
  }

  lemma NewsletterOpenMarker()
    ensures NewsletterPlaceholders[4] == "#" + MarkerName(NewsletterFields[3].id)
  {
    NewsletterShape();
    ShowOptionalSectionMarker();
  }

  lemma NewsletterCloseMarker()
    ensures NewsletterPlaceholders[6] == "/" + MarkerName(NewsletterFields[3].id)
  {
    NewsletterShape();
    ShowOptionalSectionMarker();
  }

  lemma NewsletterControlledToken()
    ensures NewsletterPlaceholders[5] == TokenName(NewsletterFields[4].id)
  {
    NewsletterShape();
    OptionalContentToken();
  }

  /**
   * The block around the field the `newsletter-basic` toggle controls is marked
   * with the toggle's all-underscore name.
   */
  lemma NewsletterToggleBlock()
    ensures Newsletter.fields[3].controlsSection == Some(Newsletter.fields[4].id)
    ensures NewsletterPlaceholders[4] == "#" + MarkerName(Newsletter.fields[3].id)
    ensures NewsletterPlaceholders[5] == TokenName(Newsletter.fields[4].id)
    ensures NewsletterPlaceholders[6] == "/" + MarkerName(Newsletter.fields[3].id)
  {
    NewsletterShape();
    NewsletterOpenMarker();
    NewsletterCloseMarker();
    NewsletterControlledToken();
  }

  /** Both block markers occur in the `newsletter-basic` body. */
  lemma NewsletterMarkersOccur()
    ensures Occurs(Newsletter.htmlTemplate, Placeholder(NewsletterPlaceholders[4]))
    ensures Occurs(Newsletter.htmlTemplate, Placeholder(NewsletterPlaceholders[6]))
  {
    NewsletterBodyWoven();
    PlaceholderInBody(Newsletter, NewsletterStatics, NewsletterPlaceholders, 4, NewsletterPlaceholders[4]);
    PlaceholderInBody(Newsletter, NewsletterStatics, NewsletterPlaceholders, 6, NewsletterPlaceholders[6]);
  }

  /** Every field id of `promotional` is plain. */
  lemma PromotionalPlainIds()
    ensures forall i :: 0 <= i < |Promotional.fields| ==> PlainId(Promotional.fields[i].id)
  {
    PromotionalShape();
    forall i | 0 <= i < |Promotional.fields|
      ensures PlainId(Promotional.fields[i].id)
    {
      if i == 0 { HeroImagePlain(); }
      else if i == 1 { CtaLinkPlain(); }
      else if i == 2 { PromotionalContentPlain(); }
      else if i == 3 { ShowBonusSectionPlain(); }
      else if i == 4 { BonusContentPlain(); }
      else { FooterPromoPlain(); }
    }
  }

  /** `{{TITLE}}` is the first placeholder of the `promotional` body and no other. */
  lemma PromotionalTitleOnce()
    ensures PromotionalPlaceholders[0] == "TITLE" && multiset(PromotionalPlaceholders)["TITLE"] == 1
  {
  }

  lemma PromotionalTitleOccurs()
    ensures Occurs(Promotional.htmlTemplate, Placeholder("TITLE"))
  {
    PromotionalBodyWoven();
    PlaceholderInBody(Promotional, PromotionalStatics, PromotionalPlaceholders, 0, "TITLE");
  }

  /** The token name the `promotional` toggle derives is no placeholder of the body. */
  lemma PromotionalToggleUnmatched()
    ensures Promotional.fields[3].kind == Toggle
    ensures TokenName(Promotional.fields[3].id) !in PromotionalPlaceholders
  {
    PromotionalShape();
    ShowBonusSectionToken();
    assert "SHOW_BONUS-SECTION" !in PromotionalPlaceholders;
  }

  lemma PromotionalOpenMarker()
    ensures PromotionalPlaceholders[4] == "#" + MarkerName(PromotionalFields[3].id)
  {
    PromotionalShape();
    ShowBonusSectionMarker();
  }

  lemma PromotionalCloseMarker()
    ensures PromotionalPlaceholders[6] == "/" + MarkerName(PromotionalFields[3].id)
  {
    PromotionalShape();
    ShowBonusSectionMarker();
  }

  lemma PromotionalControlledToken()
    ensures PromotionalPlaceholders[5] == TokenName(PromotionalFields[4].id)
  {
    PromotionalShape();
    BonusContentToken();
  }

  /**
   * The block around the field the `promotional` toggle controls is marked
   * with the toggle's all-underscore name.
   */
  lemma PromotionalToggleBlock()
    ensures Promotional.fields[3].controlsSection == Some(Promotional.fields[4].id)
    ensures PromotionalPlaceholders[4] == "#" + MarkerName(Promotional.fields[3].id)
    ensures PromotionalPlaceholders[5] == TokenName(Promotional.fields[4].id)
    ensures PromotionalPlaceholders[6] == "/" + MarkerName(Promotional.fields[3].id)
  {
    PromotionalShape();
    PromotionalOpenMarker();
    PromotionalCloseMarker();
    PromotionalControlledToken();
  }

  /** Both block markers occur in the `promotional` body. */
  lemma PromotionalMarkersOccur()
    ensures Occurs(Promotional.htmlTemplate, Placeholder(PromotionalPlaceholders[4]))
    ensures Occurs(Promotional.htmlTemplate, Placeholder(PromotionalPlaceholders[6]))
  {
    PromotionalBodyWoven();
    PlaceholderInBody(Promotional, PromotionalStatics, PromotionalPlaceholders, 4, PromotionalPlaceholders[4]);
    PlaceholderInBody(Promotional, PromotionalStatics, PromotionalPlaceholders, 6, PromotionalPlaceholders[6]);
  }

  /** Every field id of `welcome-series` is plain. */
  lemma WelcomeSeriesPlainIds()
    ensures forall i :: 0 <= i < |WelcomeSeries.fields| ==> PlainId(WelcomeSeries.fields[i].id)
  {
    WelcomeSeriesShape();
    forall i | 0 <= i < |WelcomeSeries.fields|
      ensures PlainId(WelcomeSeries.fields[i].id)
    {
      if i == 0 { WelcomeImagePlain(); }
      else if i == 1 { CompanyLinkPlain(); }
      else if i == 2 { WelcomeMessagePlain(); }
      else if i == 3 { ShowGettingStartedPlain(); }
      else if i == 4 { GettingStartedPlain(); }
      else { WelcomeFooterPlain(); }
    }
  }

  /** `{{TITLE}}` is the first placeholder of the `welcome-series` body and no other. */
  lemma WelcomeSeriesTitleOnce()
    ensures WelcomeSeriesPlaceholders[0] == "TITLE" && multiset(WelcomeSeriesPlaceholders)["TITLE"] == 1
  {
  }

  lemma WelcomeSeriesTitleOccurs()
    ensures Occurs(WelcomeSeries.htmlTemplate, Placeholder("TITLE"))
  {
    WelcomeSeriesBodyWoven();
    PlaceholderInBody(WelcomeSeries, WelcomeSeriesStatics, WelcomeSeriesPlaceholders, 0, "TITLE");
  }

  /** The token name the `welcome-series` toggle derives is no placeholder of the body. */
  lemma WelcomeSeriesToggleUnmatched()
    ensures WelcomeSeries.fields[3].kind == Toggle
    ensures TokenName(WelcomeSeries.fields[3].id) !in WelcomeSeriesPlaceholders
  {
    WelcomeSeriesShape();
    ShowGettingStartedToken();
    assert "SHOW_GETTING-STARTED" !in WelcomeSeriesPlaceholders;
  }

  lemma WelcomeSeriesOpenMarker()
    ensures WelcomeSeriesPlaceholders[4] == "#" + MarkerName(WelcomeSeriesFields[3].id)
  {
    WelcomeSeriesShape();
    ShowGettingStartedMarker();
  }

  lemma WelcomeSeriesCloseMarker()
    ensures WelcomeSeriesPlaceholders[6] == "/" + MarkerName(WelcomeSeriesFields[3].id)
  {
    WelcomeSeriesShape();
    ShowGettingStartedMarker();
  }

  lemma WelcomeSeriesControlledToken()
    ensures WelcomeSeriesPlaceholders[5] == TokenName(WelcomeSeriesFields[4].id)
  {
    WelcomeSeriesShape();
    GettingStartedToken();
  }

  /**
   * The block around the field the `welcome-series` toggle controls is marked
   * with the toggle's all-underscore name.
   */
  lemma WelcomeSeriesToggleBlock()
    ensures WelcomeSeries.fields[3].controlsSection == Some(WelcomeSeries.fields[4].id)
    ensures WelcomeSeriesPlaceholders[4] == "#" + MarkerName(WelcomeSeries.fields[3].id)
    ensures WelcomeSeriesPlaceholders[5] == TokenName(WelcomeSeries.fields[4].id)
    ensures WelcomeSeriesPlaceholders[6] == "/" + MarkerName(WelcomeSeries.fields[3].id)
  {
    WelcomeSeriesShape();
    WelcomeSeriesOpenMarker();
    WelcomeSeriesCloseMarker();
    WelcomeSeriesControlledToken();
  }

  /** Both block markers occur in the `welcome-series` body. */
  lemma WelcomeSeriesMarkersOccur()
    ensures Occurs(WelcomeSeries.htmlTemplate, Placeholder(WelcomeSeriesPlaceholders[4]))
    ensures Occurs(WelcomeSeries.htmlTemplate, Placeholder(WelcomeSeriesPlaceholders[6]))
  {
    WelcomeSeriesBodyWoven();
    PlaceholderInBody(WelcomeSeries, WelcomeSeriesStatics, WelcomeSeriesPlaceholders, 4, WelcomeSeriesPlaceholders[4]);
    PlaceholderInBody(WelcomeSeries, WelcomeSeriesStatics, WelcomeSeriesPlaceholders, 6, WelcomeSeriesPlaceholders[6]);
  }


  // ---------------------------------------------------------------------
  // Block markers of the seeds survive rendering
  // ---------------------------------------------------------------------

  /** A block marker built from a plain id has the shape `RenderKeepsMarker` asks for. */
  lemma MarkerOfPlainId(x: string, c: char, id: string)
    requires PlainId(id) && (c == '#' || c == '/') && x == [c] + MarkerName(id)
    ensures |x| >= 1 && (x[0] == '#' || x[0] == '/') && BraceFree(x)
  {
    var n := MarkerName(id);
    forall i | 0 <= i < |n|
      ensures n[i] != '{' && n[i] != '}'
    {
      assert IdChar(id[i]);
    }
    assert forall i :: 0 <= i < |x| ==> x[i] != '{' && x[i] != '}' by {
      forall i | 0 <= i < |x| ensures x[i] != '{' && x[i] != '}' {
        if i > 0 { assert x[i] == n[i - 1]; }
      }
    }
  }

  /** The `newsletter-basic` block markers start with `#` and `/` and hold no brace. */
  lemma NewsletterMarkerShapes()
    ensures |NewsletterPlaceholders[4]| >= 1 && NewsletterPlaceholders[4][0] == '#' && BraceFree(NewsletterPlaceholders[4])
    ensures |NewsletterPlaceholders[6]| >= 1 && NewsletterPlaceholders[6][0] == '/' && BraceFree(NewsletterPlaceholders[6])
  {
    NewsletterPlainIds();
    NewsletterOpenMarker();
    NewsletterCloseMarker();
    var id := NewsletterFields[3].id;
    assert PlainId(id) by { NewsletterShape(); }
    MarkerOfPlainId(NewsletterPlaceholders[4], '#', id);
    MarkerOfPlainId(NewsletterPlaceholders[6], '/', id);
  }

  /** The `newsletter-basic` opening block marker is still in the rendered preview. */
  lemma NewsletterRenderOpenMarker()
    ensures Occurs(Render(Newsletter), Placeholder(NewsletterPlaceholders[4]))
  {
    NewsletterPlainIds();
    NewsletterMarkersOccur();
    NewsletterMarkerShapes();
    RenderKeepsMarker(Newsletter, NewsletterPlaceholders[4]);
  }

  /** The `newsletter-basic` closing block marker is still in the rendered preview. */
  lemma NewsletterRenderCloseMarker()
    ensures Occurs(Render(Newsletter), Placeholder(NewsletterPlaceholders[6]))
  {
    NewsletterPlainIds();
    NewsletterMarkersOccur();
    NewsletterMarkerShapes();
    RenderKeepsMarker(Newsletter, NewsletterPlaceholders[6]);
  }

  /** The `promotional` block markers start with `#` and `/` and hold no brace. */
  lemma PromotionalMarkerShapes()
    ensures |PromotionalPlaceholders[4]| >= 1 && PromotionalPlaceholders[4][0] == '#' && BraceFree(PromotionalPlaceholders[4])
    ensures |PromotionalPlaceholders[6]| >= 1 && PromotionalPlaceholders[6][0] == '/' && BraceFree(PromotionalPlaceholders[6])
  {
    PromotionalPlainIds();
    PromotionalOpenMarker();
    PromotionalCloseMarker();
    var id := PromotionalFields[3].id;
    assert PlainId(id) by { PromotionalShape(); }
    MarkerOfPlainId(PromotionalPlaceholders[4], '#', id);
    MarkerOfPlainId(PromotionalPlaceholders[6], '/', id);
  }

  /** The `promotional` opening block marker is still in the rendered preview. */
  lemma PromotionalRenderOpenMarker()
    ensures Occurs(Render(Promotional), Placeholder(PromotionalPlaceholders[4]))
  {
    PromotionalPlainIds();
    PromotionalMarkersOccur();
    PromotionalMarkerShapes();
    RenderKeepsMarker(Promotional, PromotionalPlaceholders[4]);
  }

  /** The `promotional` closing block marker is still in the rendered preview. */
  lemma PromotionalRenderCloseMarker()
    ensures Occurs(Render(Promotional), Placeholder(PromotionalPlaceholders[6]))
  {
    PromotionalPlainIds();
    PromotionalMarkersOccur();
    PromotionalMarkerShapes();
    RenderKeepsMarker(Promotional, PromotionalPlaceholders[6]);
  }

  /** The `welcome-series` block markers start with `#` and `/` and hold no brace. */
  lemma WelcomeSeriesMarkerShapes()
    ensures |WelcomeSeriesPlaceholders[4]| >= 1 && WelcomeSeriesPlaceholders[4][0] == '#' && BraceFree(WelcomeSeriesPlaceholders[4])
    ensures |WelcomeSeriesPlaceholders[6]| >= 1 && WelcomeSeriesPlaceholders[6][0] == '/' && BraceFree(WelcomeSeriesPlaceholders[6])
  {
    WelcomeSeriesPlainIds();
    WelcomeSeriesOpenMarker();
    WelcomeSeriesCloseMarker();
    var id := WelcomeSeriesFields[3].id;
    assert PlainId(id) by { WelcomeSeriesShape(); }
    MarkerOfPlainId(WelcomeSeriesPlaceholders[4], '#', id);
    MarkerOfPlainId(WelcomeSeriesPlaceholders[6], '/', id);
  }

  /** The `welcome-series` opening block marker is still in the rendered preview. */
  lemma WelcomeSeriesRenderOpenMarker()
    ensures Occurs(Render(WelcomeSeries), Placeholder(WelcomeSeriesPlaceholders[4]))
  {
    WelcomeSeriesPlainIds();
    WelcomeSeriesMarkersOccur();
    WelcomeSeriesMarkerShapes();
    RenderKeepsMarker(WelcomeSeries, WelcomeSeriesPlaceholders[4]);
  }

  /** The `welcome-series` closing block marker is still in the rendered preview. */
  lemma WelcomeSeriesRenderCloseMarker()
    ensures Occurs(Render(WelcomeSeries), Placeholder(WelcomeSeriesPlaceholders[6]))
  {
    WelcomeSeriesPlainIds();
    WelcomeSeriesMarkersOccur();
    WelcomeSeriesMarkerShapes();
    RenderKeepsMarker(WelcomeSeries, WelcomeSeriesPlaceholders[6]);
  }


  // ---------------------------------------------------------------------
  // Control panel sections of the seeds
  // ---------------------------------------------------------------------

  /** Two fields of section `a`, three of `b`, one of `c` give three tabs. */
  lemma ThreeSections(a: string, b: string, c: string)
    requires a != b && b != c && a != c
    ensures Distinct([a, a, b, b, b, c]) == [a, b, c]
  {
    assert [a][..0] == [];
    assert Distinct([a]) == [a];
    assert [a, a][..1] == [a];
    assert Distinct([a, a]) == [a];
    assert [a, a, b][..2] == [a, a];
    assert Distinct([a, a, b]) == [a, b];
    assert [a, a, b, b][..3] == [a, a, b];
    assert Distinct([a, a, b, b]) == [a, b];
    assert [a, a, b, b, b][..4] == [a, a, b, b];
    assert Distinct([a, a, b, b, b]) == [a, b];
    assert [a, a, b, b, b, c][..5] == [a, a, b, b, b];
  }

  lemma NewsletterSections()
    ensures Sections(NewsletterFields) == ["Header", "Content", "Footer"]
    ensures InitialActiveSection(NewsletterFields) == "Header"
  {
    assert SectionLabels(NewsletterFields) == ["Header", "Header", "Content", "Content", "Content", "Footer"];
    ThreeSections("Header", "Content", "Footer");
  }

  lemma PromotionalSections()
    ensures Sections(PromotionalFields) == ["Hero", "Content", "Footer"]
    ensures InitialActiveSection(PromotionalFields) == "Hero"
  {
    assert SectionLabels(PromotionalFields) == ["Hero", "Hero", "Content", "Content", "Content", "Footer"];
    ThreeSections("Hero", "Content", "Footer");
  }

  lemma WelcomeSeriesSections()
    ensures Sections(WelcomeSeriesFields) == ["Header", "Content", "Footer"]
    ensures InitialActiveSection(WelcomeSeriesFields) == "Header"
  {
    assert SectionLabels(WelcomeSeriesFields) == ["Header", "Header", "Content", "Content", "Content", "Footer"];
    ThreeSections("Header", "Content", "Footer");
  }
}
