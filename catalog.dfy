/**
 * The kickstart template catalog of `ISOBuilderLogic`: the three built-in
 * templates, the listing of public templates followed by the built-ins, and
 * the lookup by name that prefers a stored template over a built-in one.
 * The template table is a parameter: `None` when querying it raises, which
 * the operations catch.
 */
module TemplateCatalog {
  import opened Wrappers
  import opened Models

  /** The three kickstart documents the built-in templates carry. */
  datatype KickstartBody = MinimalBody | DesktopBody | ServerBody

  /** The `kickstart_content` text of a built-in template, character for character. */
  function KickstartText(body: KickstartBody): string {
    match body
    case MinimalBody =>
      @"# Oreon Linux Minimal Installation
text
lang en_US.UTF-8
keyboard us
timezone America/New_York

# Root password (please change!)
rootpw --plaintext oreon

# Disk configuration
clearpart --all --initlabel
autopart

# Package selection
%packages --default
@core
%end

# Post-installation
%post
echo ""Welcome to Oreon Linux!"" > /etc/motd
%end
"
    case DesktopBody =>
      @"# Oreon Linux Desktop Installation
text
lang en_US.UTF-8
keyboard us
timezone America/New_York

# Root password (please change!)
rootpw --plaintext oreon

# User account
user --name=oreon --password=oreon --plaintext --gecos=""Oreon User""

# Disk configuration
clearpart --all --initlabel
autopart

# Network configuration
network --bootproto=dhcp --device=link --activate

# Package selection
%packages --default
@core
@gnome-desktop-environment
@multimedia
@development-tools
firefox
libreoffice
%end

# Services
services --enabled=gdm,NetworkManager

# Post-installation
%post
echo ""Welcome to Oreon Linux Desktop!"" > /etc/motd
%end
"
    case ServerBody =>
      @"# Oreon Linux Server Installation
text
lang en_US.UTF-8
keyboard us
timezone UTC

# Root password (please change!)
rootpw --plaintext oreon

# Disk configuration
clearpart --all --initlabel
autopart

# Network configuration
network --bootproto=dhcp --device=link --activate

# Package selection
%packages --default
@core
@server-product-environment
openssh-server
httpd
mariadb-server
%end

# Services
services --enabled=sshd,httpd,mariadb

# Firewall
firewall --enabled --service=ssh,http,https

# Post-installation
%post
echo ""Welcome to Oreon Linux Server!"" > /etc/motd
systemctl enable sshd
%end
"
  }

  /**
   * A built-in template dictionary. Its `kickstart_content` is
   * `KickstartText(kickstart)`.
   */
  datatype BuiltinTemplate = BuiltinTemplate(
    name: string,
    description: string,
    category: string,
    isOfficial: bool,
    kickstart: KickstartBody,
    supportedArchitectures: seq<string>,
    defaultReleaseVersion: string)

  /**
   * A template dictionary as the catalog hands it out: a stored row turned
   * into a dictionary (`to_dict()`, with the kickstart text only when
   * `withContent`), or a built-in template.
   */
  datatype TemplateEntry =
    | Stored(record: TemplateRecord, withContent: bool)
    | BuiltIn(template: BuiltinTemplate)

  function EntryName(e: TemplateEntry): string {
    match e
    case Stored(record, _) => record.name
    case BuiltIn(template) => template.name
  }

  const MinimalTemplate: BuiltinTemplate := BuiltinTemplate(
    "oreon-minimal", "Minimal Oreon Linux installation", "minimal", true,
    MinimalBody,
    ["x86_64", "aarch64"], "10")

  const DesktopTemplate: BuiltinTemplate := BuiltinTemplate(
    "oreon-desktop", "Oreon Linux with GNOME desktop environment", "desktop", true,
    DesktopBody,
    ["x86_64"], "10")

  const ServerTemplate: BuiltinTemplate := BuiltinTemplate(
    "oreon-server", "Oreon Linux server installation", "server", true,
    ServerBody,
    ["x86_64", "aarch64"], "10")

  /** `_get_builtin_templates()`: the three built-in templates, in this order. */
  function BuiltinTemplates(): seq<BuiltinTemplate> {
    [MinimalTemplate, DesktopTemplate, ServerTemplate]
  }

  /** The names of the built-ins, in the same order. */
  function BuiltinNames(): seq<string> {
    seq(|BuiltinTemplates()|, k requires 0 <= k < |BuiltinTemplates()| => BuiltinTemplates()[k].name)
  }

  /** The built-ins are official, have distinct names, target `x86_64`, and default to release 10. */
  lemma BuiltinTemplatesShape()
    ensures |BuiltinTemplates()| == 3
    ensures forall k, l :: 0 <= k < l < 3 ==> BuiltinNames()[k] != BuiltinNames()[l]
    ensures forall k :: 0 <= k < 3 ==> BuiltinTemplates()[k].isOfficial
    ensures forall k :: 0 <= k < 3 ==> "x86_64" in BuiltinTemplates()[k].supportedArchitectures
    ensures forall k :: 0 <= k < 3 ==> BuiltinTemplates()[k].defaultReleaseVersion == "10"
  {
    assert BuiltinNames()[0] != BuiltinNames()[1] by { assert BuiltinNames()[0][6] != BuiltinNames()[1][6]; }
    assert BuiltinNames()[0] != BuiltinNames()[2] by { assert BuiltinNames()[0][6] != BuiltinNames()[2][6]; }
    assert BuiltinNames()[1] != BuiltinNames()[2] by { assert BuiltinNames()[1][6] != BuiltinNames()[2][6]; }
  }

  /** The listing entries of the public rows, in table order, as `to_dict()` without content. */
  function PublicEntries(rows: seq<TemplateRecord>): seq<TemplateEntry> {
    if rows == [] then []
    else PublicEntries(rows[..|rows| - 1])
         + (if rows[|rows| - 1].isPublic then [Stored(rows[|rows| - 1], false)] else [])
  }

  /** The built-ins as listing entries. */
  function BuiltinEntries(): seq<TemplateEntry> {
    seq(|BuiltinTemplates()|, k requires 0 <= k < |BuiltinTemplates()| => BuiltIn(BuiltinTemplates()[k]))
  }

  /**
   * The public entries are exactly the public rows, each without its
   * content, and there are no more of them than rows.
   */
  lemma {:induction false} PublicEntriesIff(rows: seq<TemplateRecord>, e: TemplateEntry)
    ensures |PublicEntries(rows)| <= |rows|
    ensures e in PublicEntries(rows) <==> e.Stored? && !e.withContent && e.record in rows && e.record.isPublic
  {
    if rows != [] {
      var init := rows[..|rows| - 1];
      PublicEntriesIff(init, e);
      assert rows == init + [rows[|rows| - 1]];
    }
  }

  /** Every row is public exactly when every row is listed. */
  lemma {:induction false} AllPublicAllListed(rows: seq<TemplateRecord>)
    ensures |PublicEntries(rows)| == |rows| <==> forall i :: 0 <= i < |rows| ==> rows[i].isPublic
  {
    if rows != [] {
      var init := rows[..|rows| - 1];
      AllPublicAllListed(init);
      // only the length bound of `PublicEntriesIff` is needed here; any entry will do
      PublicEntriesIff(init, Stored(rows[0], false));
      if !rows[|rows| - 1].isPublic {
        assert |PublicEntries(rows)| < |rows|;
      } else if exists i :: 0 <= i < |init| && !init[i].isPublic {
        var i :| 0 <= i < |init| && !init[i].isPublic;
        assert !rows[i].isPublic;
      } else {
        assert forall i :: 0 <= i < |rows| ==> rows[i].isPublic by {
          forall i | 0 <= i < |rows| ensures rows[i].isPublic {
            if i < |init| {
              assert rows[i] == init[i];
            }
          }
        }
      }
    }
  }

  /**
   * `get_kickstart_templates`: the public stored templates in table order,
   * then the built-ins; a failing query yields the empty list.
   */
  method GetKickstartTemplates(table: Option<seq<TemplateRecord>>) returns (templates: seq<TemplateEntry>)
    ensures table.None? ==> templates == []
    ensures table.Some? ==> templates == PublicEntries(table.value) + BuiltinEntries()
  {
    if table.None? {
      return [];
    }
    var rows := table.value;
    templates := [];
    var i := 0;
    while i < |rows|
      invariant 0 <= i <= |rows|
      invariant templates == PublicEntries(rows[..i])
    {
      if rows[i].isPublic {
        templates := templates + [Stored(rows[i], false)];
      }
      assert rows[..i + 1][..i] == rows[..i];
      i := i + 1;
    }
    assert rows[..|rows|] == rows;
    templates := templates + BuiltinEntries();
  }

  /**
   * The listing holds every public row and all three built-ins, even when a
   * stored template has a built-in's name: nothing is deduplicated, and the
   * built-ins always come last.
   */
  lemma ListingKeepsBoth(rows: seq<TemplateRecord>, row: TemplateRecord)
    requires row in rows && row.isPublic
    ensures var listing := PublicEntries(rows) + BuiltinEntries();
            && Stored(row, false) in listing
            && |listing| >= 3
            && listing[|listing| - 3..] == BuiltinEntries()
  {
    PublicEntriesIff(rows, Stored(row, false));
  }

  /** `list.index`-style search: the first position holding `name`, or `|names|` when there is none. */
  function FirstIndexOf(names: seq<string>, name: string): (i: nat)
    ensures i <= |names|
    ensures forall j :: 0 <= j < i ==> names[j] != name
    ensures i < |names| ==> names[i] == name
  {
    if names == [] then 0
    else if names[0] == name then 0
    else 1 + FirstIndexOf(names[1..], name)
  }

  function RecordNames(rows: seq<TemplateRecord>): (names: seq<string>)
    ensures |names| == |rows|
    ensures forall i :: 0 <= i < |rows| ==> names[i] == rows[i].name
  {
    seq(|rows|, i requires 0 <= i < |rows| => rows[i].name)
  }

  /**
   * `get_kickstart_template`: the first stored template with that name,
   * public or not, with its content; otherwise the first built-in with that
   * name; otherwise nothing. A failing query yields nothing.
   */
  function GetKickstartTemplate(name: string, table: Option<seq<TemplateRecord>>): (r: Option<TemplateEntry>)
    ensures r.Some? ==> EntryName(r.value) == name
  {
    if table.None? then None
    else
      var rows := table.value;
      var i := FirstIndexOf(RecordNames(rows), name);
      if i < |rows| then Some(Stored(rows[i], true))
      else
        var k := FirstIndexOf(BuiltinNames(), name);
        if k < |BuiltinNames()| then (BuiltinTemplatesShape(); Some(BuiltIn(BuiltinTemplates()[k]))) else None
  }

  /** The first stored row with the name wins, whatever its visibility and whatever the built-ins hold. */
  lemma StoredTemplateFirst(name: string, rows: seq<TemplateRecord>, i: int)
    requires 0 <= i < |rows| && rows[i].name == name
    requires forall j :: 0 <= j < i ==> rows[j].name != name
    ensures GetKickstartTemplate(name, Some(rows)) == Some(Stored(rows[i], true))
  {
    assert RecordNames(rows)[i] == name;
  }

  /** With no stored row of that name, the built-in of that name is the answer. */
  lemma BuiltinFallback(name: string, rows: seq<TemplateRecord>, k: int)
    requires forall j :: 0 <= j < |rows| ==> rows[j].name != name
    requires 0 <= k < 3 && BuiltinTemplates()[k].name == name
    ensures GetKickstartTemplate(name, Some(rows)) == Some(BuiltIn(BuiltinTemplates()[k]))
  {
    BuiltinTemplatesShape();
    assert BuiltinNames()[k] == name;
  }

  /** The lookup finds nothing exactly when the query fails or neither the table nor the built-ins hold the name. */
  lemma LookupNoneIff(name: string, table: Option<seq<TemplateRecord>>)
    ensures GetKickstartTemplate(name, table).None? <==>
              table.None? ||
              ((forall j :: 0 <= j < |table.value| ==> table.value[j].name != name) && name !in BuiltinNames())
  {
    if table.Some? {
      var rows := table.value;
      var i := FirstIndexOf(RecordNames(rows), name);
      if i < |rows| {
        assert rows[i].name == name;
      } else {
        assert forall j :: 0 <= j < |rows| ==> rows[j].name != name by {
          forall j | 0 <= j < |rows| ensures rows[j].name != name {
            assert RecordNames(rows)[j] == rows[j].name;
          }
        }
      }
    }
  }

  /** Every template the listing shows can be fetched by its name. */
  lemma ListedTemplatesCanBeFetched(rows: seq<TemplateRecord>, e: TemplateEntry)
    requires e in PublicEntries(rows) + BuiltinEntries()
    ensures GetKickstartTemplate(EntryName(e), Some(rows)).Some?
  {
    LookupNoneIff(EntryName(e), Some(rows));
    if e in PublicEntries(rows) {
      PublicEntriesIff(rows, e);
      var j :| 0 <= j < |rows| && rows[j] == e.record;
    } else {
      var k :| 0 <= k < 3 && e == BuiltinEntries()[k];
      assert BuiltinNames()[k] == EntryName(e);
    }
  }
}
