/**
 * The dashboard shell (js/main.js): the sidebar's desktop/mobile state as the
 * toggle buttons, the overlay, the Escape key and window resizes change it,
 * the breadcrumb, and the paths a section's page and script are loaded from.
 *
 * Each DOM class or style the code sets is a boolean field of the Dashboard
 * class; its transitions are also given as functions on a Sidebar value, so
 * that lemmas can relate several of them.
 */
module DashboardShell {
  import opened Wrappers

  /** Widths up to this many pixels are the mobile layout. */
  const MobileMaxWidth: int := 768

  /** The icon class of the two toggle buttons. */
  datatype Icon = Bars | ChevronRight

  /**
   * The sidebar state: the two fields of Dashboard, the 'collapsed' and
   * 'expanded' classes, the 'mobile-open' and 'active' classes of sidebar and
   * overlay, the body's overflow: hidden, and the two buttons' icons.
   */
  datatype Sidebar = Sidebar(
    isMobile: bool,
    collapsed: bool,
    collapsedClass: bool,
    expandedClass: bool,
    mobileOpen: bool,
    overlayActive: bool,
    overflowHidden: bool,
    toggleIcon: Icon,
    mobileToggleIcon: Icon)

  function IconFor(collapsed: bool): Icon
  {
    if collapsed then ChevronRight else Bars
  }

  /**
   * What the shell keeps in step: the classes follow sidebarCollapsed, both
   * icons show the chevron exactly when collapsed, the sidebar, the overlay
   * and the body's overflow open and close together, and the mobile layout
   * is never collapsed.
   */
  predicate Consistent(s: Sidebar)
  {
    && s.collapsedClass == s.collapsed && s.expandedClass == s.collapsed
    && s.toggleIcon == IconFor(s.collapsed) && s.mobileToggleIcon == IconFor(s.collapsed)
    && s.mobileOpen == s.overlayActive == s.overflowHidden
    && (s.isMobile ==> !s.collapsed)
  }

  /** The layout the handlers evidently aim for: on desktop the mobile sidebar is closed. */
  predicate DesktopClosed(s: Sidebar)
  {
    !s.isMobile ==> !s.mobileOpen && !s.overlayActive && !s.overflowHidden
  }

  /** The state the constructor and init leave for a window this wide. */
  function Initial(width: int): (s: Sidebar)
    ensures Consistent(s) && DesktopClosed(s)
    ensures s.isMobile <==> width <= MobileMaxWidth
    ensures !s.collapsed && !s.mobileOpen
  {
    Sidebar(width <= MobileMaxWidth, false, false, false, false, false, false, Bars, Bars)
  }

  /** updateToggleIcon. */
  function UpdateIcons(s: Sidebar): Sidebar
  {
    s.(toggleIcon := IconFor(s.collapsed), mobileToggleIcon := IconFor(s.collapsed))
  }

  /** toggleSidebar: on desktop flip the collapsed state and its classes; nothing on mobile. */
  function ToggleSidebar(s: Sidebar): Sidebar
  {
    if s.isMobile then s
    else
      var c := !s.collapsed;
      UpdateIcons(s.(collapsed := c, collapsedClass := c, expandedClass := c))
  }

  /** toggleMobileSidebar: on mobile flip the sidebar and the overlay; nothing on desktop. */
  function ToggleMobile(s: Sidebar): Sidebar
  {
    if !s.isMobile then s
    else
      var open := !s.mobileOpen;
      s.(mobileOpen := open, overlayActive := !s.overlayActive, overflowHidden := open)
  }

  /** closeMobileSidebar: on mobile close the sidebar and the overlay; nothing on desktop. */
  function CloseMobile(s: Sidebar): Sidebar
  {
    if !s.isMobile then s
    else s.(mobileOpen := false, overlayActive := false, overflowHidden := false)
  }

  /** The mobile toggle button: the mobile toggle on mobile, the desktop toggle otherwise. */
  function MobileToggleClick(s: Sidebar): Sidebar
  {
    if s.isMobile then ToggleMobile(s) else ToggleSidebar(s)
  }

  /**
   * handleResize as written: record the new layout; entering mobile expands
   * the sidebar; entering desktop calls closeMobileSidebar after isMobile is
   * already false, where it does nothing.
   */
  function Resize(s: Sidebar, width: int): Sidebar
  {
    var mobile := width <= MobileMaxWidth;
    var s1 := s.(isMobile := mobile);
    if s.isMobile == mobile then s1
    else if mobile then UpdateIcons(s1.(collapsedClass := false, expandedClass := false, collapsed := false))
    else UpdateIcons(CloseMobile(s1))
  }

  /** handleResize corrected: the mobile sidebar is closed while the layout is still mobile. */
  function ResizeCorrected(s: Sidebar, width: int): Sidebar
  {
    var mobile := width <= MobileMaxWidth;
    if s.isMobile == mobile then s.(isMobile := mobile)
    else if mobile then
      UpdateIcons(s.(isMobile := mobile, collapsedClass := false, expandedClass := false, collapsed := false))
    else UpdateIcons(CloseMobile(s).(isMobile := mobile))
  }

  /** Every handler keeps the shell consistent. */
  lemma HandlersKeepConsistent(s: Sidebar, width: int)
    requires Consistent(s)
    ensures Consistent(ToggleSidebar(s))
    ensures Consistent(ToggleMobile(s))
    ensures Consistent(CloseMobile(s))
    ensures Consistent(MobileToggleClick(s))
    ensures Consistent(Resize(s, width))
    ensures Consistent(ResizeCorrected(s, width))
  {
  }

  /** On desktop, toggling twice restores the state; on mobile toggling does nothing. */
  lemma ToggleSidebarTwice(s: Sidebar)
    requires Consistent(s)
    ensures !s.isMobile ==> ToggleSidebar(ToggleSidebar(s)) == s
    ensures !s.isMobile ==> ToggleSidebar(s).collapsed == !s.collapsed
    ensures s.isMobile ==> ToggleSidebar(s) == s
  {
  }

  /** Toggling the mobile sidebar twice restores the state. */
  lemma ToggleMobileTwice(s: Sidebar)
    requires Consistent(s)
    ensures ToggleMobile(ToggleMobile(s)) == s
    ensures s.isMobile ==> ToggleMobile(s).mobileOpen == !s.mobileOpen
  {
  }

  /** A resize that does not cross 768 pixels changes nothing. */
  lemma ResizeSameLayout(s: Sidebar, width: int)
    requires s.isMobile == (width <= MobileMaxWidth)
    ensures Resize(s, width) == s
  {
  }

  /** Crossing into mobile expands the sidebar and shows the bars icons. */
  lemma ResizeIntoMobile(s: Sidebar, width: int)
    requires !s.isMobile && width <= MobileMaxWidth
    ensures var t := Resize(s, width);
      t.isMobile && !t.collapsed && !t.collapsedClass && !t.expandedClass
      && t.toggleIcon == Bars && t.mobileToggleIcon == Bars
      && t.mobileOpen == s.mobileOpen
  {
  }

  /**
   * A window narrowed with the mobile sidebar open and then widened keeps
   * the sidebar open, the overlay active and the page unscrollable on the
   * desktop layout.
   */
  lemma ResizeLeavesMobileOpen()
    ensures var s := ToggleMobile(Initial(500));
      var t := Resize(s, 1024);
      && Consistent(s) && s.isMobile && s.mobileOpen
      && !t.isMobile && t.mobileOpen && t.overlayActive && t.overflowHidden
      && !DesktopClosed(t)
  {
  }

  /** The corrected resize, and every other handler, keep the desktop sidebar closed. */
  lemma HandlersKeepDesktopClosed(s: Sidebar, width: int)
    requires Consistent(s) && DesktopClosed(s)
    ensures DesktopClosed(ResizeCorrected(s, width))
    ensures DesktopClosed(ToggleSidebar(s))
    ensures DesktopClosed(ToggleMobile(s))
    ensures DesktopClosed(CloseMobile(s))
    ensures DesktopClosed(MobileToggleClick(s))
  {
  }

  /** The corrected resize differs from the original only by closing the mobile sidebar. */
  lemma ResizeCorrectedAgrees(s: Sidebar, width: int)
    ensures !(s.isMobile && width > MobileMaxWidth) ==> ResizeCorrected(s, width) == Resize(s, width)
    ensures s.isMobile && width > MobileMaxWidth ==>
              ResizeCorrected(s, width)
              == Resize(s, width).(mobileOpen := false, overlayActive := false, overflowHidden := false)
  {
  }

  // ---------------------------------------------------------------------------
  // Breadcrumb and module paths
  // ---------------------------------------------------------------------------

  /** updateBreadcrumb's table of section names. */
  const SectionNames: map<string, string> := map[
    "financiero" := "Financiero",
    "calculadora-inversion" := "Financiero - Calculadora de Inversi\U{00F3}n",
    "calculadora-4x1000" := "Financiero - Calculadora 4x1000",
    "desarrollo" := "Desarrollo",
    "comparar-textos" := "Desarrollo - Comparar Textos",
    "links-utils" := "Desarrollo - Links Utils"
  ]

  /** updateBreadcrumb: the section's name, or "Dashboard" for a section not in the table. */
  function Breadcrumb(section: string): (b: string)
    ensures b == "Dashboard" <==> section !in SectionNames
    ensures section in SectionNames ==> b == SectionNames[section]
  {
    if section in SectionNames then SectionNames[section] else "Dashboard"
  }

  /**
   * The directory a section's files are in: the four tools live under their
   * group's directory, any other section directly under modules/.
   */
  function SectionDir(section: string): string
  {
    match section
    case "calculadora-inversion" => "modules/financiero/calculadora-inversion/"
    case "calculadora-4x1000" => "modules/financiero/calculadora-4x1000/"
    case "links-utils" => "modules/desarrollo/links-utils/"
    case "comparar-textos" => "modules/desarrollo/comparar-textos/"
    case _ => "modules/" + section + "/"
  }

  /** loadSection's choice of the page to fetch. */
  function ModulePath(section: string): string
  {
    match section
    case "calculadora-inversion" => "modules/financiero/calculadora-inversion/index.html"
    case "calculadora-4x1000" => "modules/financiero/calculadora-4x1000/index.html"
    case "links-utils" => "modules/desarrollo/links-utils/index.html"
    case "comparar-textos" => "modules/desarrollo/comparar-textos/index.html"
    case _ => "modules/" + section + "/index.html"
  }

  /** loadModuleScript's choice of the script to load. */
  function ScriptPath(section: string): string
  {
    match section
    case "calculadora-inversion" => "modules/financiero/calculadora-inversion/script.js"
    case "calculadora-4x1000" => "modules/financiero/calculadora-4x1000/script.js"
    case "links-utils" => "modules/desarrollo/links-utils/script.js"
    case "comparar-textos" => "modules/desarrollo/comparar-textos/script.js"
    case _ => "modules/" + section + "/script.js"
  }

  /**
   * Page and script of every section are index.html and script.js of the
   * same directory: modules/<group>/<section>/ for the four grouped sections,
   * modules/<section>/ for any other.
   */
  lemma PathsShareDirectory(section: string)
    ensures ModulePath(section) == SectionDir(section) + "index.html"
    ensures ScriptPath(section) == SectionDir(section) + "script.js"
  {
    match section
    case "calculadora-inversion" => InversionPaths();
    case "calculadora-4x1000" => TaxPaths();
    case "links-utils" => LinksPaths();
    case "comparar-textos" => ComparePaths();
    case _ =>
      Regroup("modules/" + section, "/", "index.html");
      Regroup("modules/" + section, "/", "script.js");
  }

  lemma InversionPaths()
    ensures ModulePath("calculadora-inversion") == SectionDir("calculadora-inversion") + "index.html"
    ensures ScriptPath("calculadora-inversion") == SectionDir("calculadora-inversion") + "script.js"
  {
  }

  lemma TaxPaths()
    ensures ModulePath("calculadora-4x1000") == SectionDir("calculadora-4x1000") + "index.html"
    ensures ScriptPath("calculadora-4x1000") == SectionDir("calculadora-4x1000") + "script.js"
  {
  }

  lemma LinksPaths()
    ensures ModulePath("links-utils") == SectionDir("links-utils") + "index.html"
    ensures ScriptPath("links-utils") == SectionDir("links-utils") + "script.js"
  {
  }

  lemma ComparePaths()
    ensures ModulePath("comparar-textos") == SectionDir("comparar-textos") + "index.html"
    ensures ScriptPath("comparar-textos") == SectionDir("comparar-textos") + "script.js"
  {
  }

  lemma Regroup(a: string, b: string, c: string)
    ensures a + b + c == a + (b + c)
  {
  }

  // ---------------------------------------------------------------------------
  // The Dashboard object
  // ---------------------------------------------------------------------------

  /** The shell's state held by the Dashboard object and the DOM it updates. */
  class Dashboard {
    var isMobile: bool
    var sidebarCollapsed: bool
    var collapsedClass: bool
    var expandedClass: bool
    var mobileOpen: bool
    var overlayActive: bool
    var overflowHidden: bool
    var toggleIcon: Icon
    var mobileToggleIcon: Icon
    var breadcrumb: string

    function State(): Sidebar
      reads this
    {
      Sidebar(isMobile, sidebarCollapsed, collapsedClass, expandedClass,
              mobileOpen, overlayActive, overflowHidden, toggleIcon, mobileToggleIcon)
    }

    ghost predicate Valid()
      reads this
    {
      Consistent(State())
    }

    /** The constructor and init for a window of this width: welcome screen, bars icons. */
    constructor (width: int)
      ensures State() == Initial(width) && breadcrumb == "Dashboard"
      ensures Valid()
    {
      isMobile := width <= MobileMaxWidth;
      sidebarCollapsed := false;
      collapsedClass, expandedClass := false, false;
      mobileOpen, overlayActive, overflowHidden := false, false, false;
      toggleIcon, mobileToggleIcon := Bars, Bars;
      breadcrumb := "Dashboard";
    }

    method UpdateToggleIcon()
      modifies this
      ensures State() == UpdateIcons(old(State())) && breadcrumb == old(breadcrumb)
    {
      if sidebarCollapsed {
        toggleIcon, mobileToggleIcon := ChevronRight, ChevronRight;
      } else {
        toggleIcon, mobileToggleIcon := Bars, Bars;
      }
    }

    method ToggleSidebarClick()
      requires Valid()
      modifies this
      ensures State() == ToggleSidebar(old(State())) && breadcrumb == old(breadcrumb)
      ensures Valid()
    {
      if !isMobile {
        sidebarCollapsed := !sidebarCollapsed;
        if sidebarCollapsed {
          collapsedClass, expandedClass := true, true;
        } else {
          collapsedClass, expandedClass := false, false;
        }
        UpdateToggleIcon();
      }
      HandlersKeepConsistent(old(State()), 0);
    }

    method ToggleMobileSidebar()
      requires Valid()
      modifies this
      ensures State() == ToggleMobile(old(State())) && breadcrumb == old(breadcrumb)
      ensures Valid()
    {
      if isMobile {
        mobileOpen := !mobileOpen;
        overlayActive := !overlayActive;
        overflowHidden := mobileOpen;
      }
      HandlersKeepConsistent(old(State()), 0);
    }

    /** closeMobileSidebar; also what the overlay click and the Escape key on mobile do. */
    method CloseMobileSidebar()
      requires Valid()
      modifies this
      ensures State() == CloseMobile(old(State())) && breadcrumb == old(breadcrumb)
      ensures Valid()
    {
      if isMobile {
        mobileOpen, overlayActive, overflowHidden := false, false, false;
      }
      HandlersKeepConsistent(old(State()), 0);
    }

    method MobileToggleButton()
      requires Valid()
      modifies this
      ensures State() == MobileToggleClick(old(State())) && breadcrumb == old(breadcrumb)
      ensures Valid()
    {
      if isMobile {
        ToggleMobileSidebar();
      } else {
        ToggleSidebarClick();
      }
    }

    /** handleResize as written. */
    method HandleResize(width: int)
      requires Valid()
      modifies this
      ensures State() == Resize(old(State()), width) && breadcrumb == old(breadcrumb)
      ensures Valid()
    {
      var wasMobile := isMobile;
      isMobile := width <= MobileMaxWidth;
      if wasMobile != isMobile {
        if isMobile {
          collapsedClass, expandedClass := false, false;
          sidebarCollapsed := false;
          UpdateToggleIcon();
        } else {
          CloseMobileSidebar();
          UpdateToggleIcon();
        }
      }
      HandlersKeepConsistent(old(State()), width);
    }

    /** handleResize corrected: close the mobile sidebar before switching to desktop. */
    method HandleResizeCorrected(width: int)
      requires Valid()
      modifies this
      ensures State() == ResizeCorrected(old(State()), width) && breadcrumb == old(breadcrumb)
      ensures Valid()
    {
      var mobile := width <= MobileMaxWidth;
      if isMobile != mobile {
        if mobile {
          isMobile := mobile;
          collapsedClass, expandedClass := false, false;
          sidebarCollapsed := false;
          UpdateToggleIcon();
        } else {
          CloseMobileSidebar();
          isMobile := mobile;
          UpdateToggleIcon();
        }
      }
      HandlersKeepConsistent(old(State()), width);
    }

    /** handleNavigation for a section link: close the mobile sidebar, then set the breadcrumb. */
    method Navigate(section: string)
      requires Valid()
      modifies this
      ensures State() == CloseMobile(old(State()))
      ensures breadcrumb == Breadcrumb(section)
      ensures Valid()
    {
      if isMobile {
        CloseMobileSidebar();
      }
      breadcrumb := Breadcrumb(section);
    }
  }
}
