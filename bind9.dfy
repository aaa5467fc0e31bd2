/**
 * The Bind9 service controllers: one compiles a master server's zone
 * files and `named.conf` stanzas into a shell script, the other a slave
 * server's stanzas. Both grow a script buffer fragment by fragment and
 * end it with a conditional reload.
 *
 * The two controllers differ in their context, in what save and delete
 * emit and in the reload line, so they are one class parameterised by a
 * `Role` instead of a base class and a subclass.
 */
module Bind9 {

  import opened Common
  import opened Text

  datatype Role = Master | Slave

  /**
   * The settings the controllers read: DOMAINS_SLAVES, DOMAINS_MASTERS,
   * DOMAINS_MASTERS_PATH, DOMAINS_SLAVES_PATH and DOMAINS_ZONE_PATH, the
   * last one a template `zonePathHead + "%(name)s" + zonePathTail`.
   */
  datatype Settings = Settings(
    slaves: seq<string>,
    masters: seq<string>,
    mastersPath: string,
    slavesPath: string,
    zonePathHead: string,
    zonePathTail: string)

  /** The parts of a domain the controllers look at. `hasTop` is "the domain has a `top`". */
  datatype Domain = Domain(name: string, hasTop: bool, serial: int)

  /**
   * The context dictionary. Only the master's carries `zone_path` and
   * `also_notify`; the slave's carries `masters` where the master's carries `slaves`.
   */
  datatype Context =
    | MasterContext(name: string, zonePath: string, banner: string, slaves: string,
                    alsoNotify: string, confPath: string, conf: string)
    | SlaveContext(name: string, banner: string, masters: string, confPath: string, conf: string)

  /** `is_main`: the generic check must accept the domain, and it must not be a subdomain. */
  function IsMain(baseAccepts: bool, d: Domain): (main: bool)
    ensures main <==> baseAccepts && !d.hasTop
  {
    if baseAccepts then !d.hasTop else false
  }

  function ConfPath(role: Role, settings: Settings): string
  {
    match role
    case Master => settings.mastersPath
    case Slave => settings.slavesPath
  }

  function ZonePath(settings: Settings, name: string): string
  {
    settings.zonePathHead + name + settings.zonePathTail
  }

  /** `get_slaves` and `get_masters`: configured IPs, then routed IPs, as an `OrderedSet`. */
  function Peers(configured: seq<string>, routed: seq<string>): (peers: seq<string>)
    ensures NoDuplicates(peers)
    ensures forall ip :: ip in peers <==> ip in configured || ip in routed
    ensures forall i, j :: 0 <= i < j < |peers| ==>
      FirstIndex(configured + routed, peers[i]) < FirstIndex(configured + routed, peers[j])
  {
    Dedup(configured + routed)
  }

  /**
   * The peer list starts with the configured IPs (deduplicated), continues
   * with routed IPs that are not configured, holds each IP once and loses none.
   */
  lemma PeersLayout(configured: seq<string>, routed: seq<string>)
    ensures var peers := Peers(configured, routed);
      && Dedup(configured) <= peers
      && (forall i :: |Dedup(configured)| <= i < |peers| ==> peers[i] in routed && peers[i] !in configured)
      && NoDuplicates(peers)
      && (forall ip :: ip in peers <==> ip in configured || ip in routed)
  {
    DedupPrefix(configured, routed);
    DedupTail(configured, routed);
  }

  /** The `slaves` / `masters` entry: the IPs joined by "; ", or "none" when that is empty. */
  function PeersText(ips: seq<string>): string
  {
    var joined := Join(ips, "; ");
    if joined == "" then "none" else joined
  }

  /** The `also_notify` entry: the joined IPs with a closing ";", or "" for no IPs. */
  function AlsoNotifyText(ips: seq<string>): string
  {
    if ips != [] then Join(ips, "; ") + ";" else ""
  }

  /**
   * No peers gives "none" and an empty notify list; peers whose join is not
   * empty give the join, and the notify list then ends in ";".
   */
  lemma PeerTexts(ips: seq<string>)
    ensures ips == [] ==> PeersText(ips) == "none" && AlsoNotifyText(ips) == ""
    ensures ips == [""] ==> PeersText(ips) == "none" && AlsoNotifyText(ips) == ";"
    ensures ips != [] && ips != [""] ==>
      && PeersText(ips) == Join(ips, "; ")
      && AlsoNotifyText(ips) == PeersText(ips) + ";"
      && EndsWith(AlsoNotifyText(ips), ";")
  {
    JoinEmpty(ips, "; ");
    var j := Join(ips, "; ");
    assert (j + ";")[|j + ";"| - 1..] == ";";
  }

  /** `replace(value, "'", '"')`. */
  function Unquote(s: string): string
  {
    Replace(s, '\'', '"')
  }

  predicate QuoteFree(ctx: Context)
  {
    && '\'' !in ctx.name && '\'' !in ctx.banner && '\'' !in ctx.confPath && '\'' !in ctx.conf
    && (ctx.MasterContext? ==>
          '\'' !in ctx.zonePath && '\'' !in ctx.slaves && '\'' !in ctx.alsoNotify)
    && (ctx.SlaveContext? ==> '\'' !in ctx.masters)
  }

  function MasterConf(name: string, banner: string, zonePath: string, slaves: string,
                      alsoNotify: string): string
  {
    "\nzone \"" + name + "\" {\n    // " + banner + "\n    type master;\n    file \"" + zonePath
    + "\";\n    allow-transfer { " + slaves + "; };\n    also-notify { " + alsoNotify
    + " };\n    notify yes;\n};"
  }

  function SlaveConf(name: string, banner: string, masters: string): string
  {
    "\nzone \"" + name + "\" {\n    // " + banner + "\n    type slave;\n    file \"" + name
    + "\";\n    masters { " + masters + "; };\n    allow-notify { " + masters + "; };\n};"
  }

  /**
   * `get_context`: the template values, with every single quote turned
   * into a double quote after the `conf` stanza has been filled in.
   * `routed` are the IPs the router gives for the other role, `banner` is
   * what `get_banner` returns.
   */
  function GetContext(role: Role, settings: Settings, d: Domain, routed: seq<string>,
                      banner: string): (ctx: Context)
    ensures QuoteFree(ctx)
    ensures ctx.MasterContext? <==> role == Master
    ensures ctx.name == Unquote(d.name) && ctx.banner == Unquote(banner)
    ensures ctx.confPath == Unquote(ConfPath(role, settings))
    ensures ctx.MasterContext? ==>
      ctx.zonePath == Unquote(ZonePath(settings, d.name)) &&
      ctx.slaves == Unquote(PeersText(Peers(settings.slaves, routed))) &&
      ctx.alsoNotify == Unquote(AlsoNotifyText(Peers(settings.slaves, routed)))
    ensures ctx.SlaveContext? ==>
      ctx.masters == Unquote(PeersText(Peers(settings.masters, routed)))
    ensures ctx.MasterContext? ==>
      var slaves := Peers(settings.slaves, routed);
      ctx.conf == Unquote(MasterConf(d.name, banner, ZonePath(settings, d.name), PeersText(slaves),
                                     AlsoNotifyText(slaves)))
    ensures ctx.SlaveContext? ==>
      ctx.conf == Unquote(SlaveConf(d.name, banner, PeersText(Peers(settings.masters, routed))))
  {
    match role
    case Master =>
      var slaves := Peers(settings.slaves, routed);
      var zonePath := ZonePath(settings, d.name);
      var slavesText, notify := PeersText(slaves), AlsoNotifyText(slaves);
      MasterContext(Unquote(d.name), Unquote(zonePath), Unquote(banner), Unquote(slavesText),
                    Unquote(notify), Unquote(settings.mastersPath),
                    Unquote(MasterConf(d.name, banner, zonePath, slavesText, notify)))
    case Slave =>
      var masters := PeersText(Peers(settings.masters, routed));
      SlaveContext(Unquote(d.name), Unquote(banner), Unquote(masters), Unquote(settings.slavesPath),
                   Unquote(SlaveConf(d.name, banner, masters)))
  }

  /** The `zone` value `update_zone` builds: a banner comment, then the rendered zone. */
  function ZoneText(ctx: Context, rendered: string): string
  {
    ";; " + ctx.banner + "\n" + Unquote(rendered)
  }

  /** The zone text written with `echo -e '...'` holds no quote that could end that string. */
  lemma ZoneTextQuoteFree(ctx: Context, rendered: string)
    requires QuoteFree(ctx)
    ensures '\'' !in ZoneText(ctx, rendered)
  {
    var z := ZoneText(ctx, rendered);
    forall i | 0 <= i < |z| ensures z[i] != '\'' {
      if i < 3 + |ctx.banner| + 1 {
        assert z[i] in ";; \n" || z[i] == ctx.banner[i - 3];
      } else {
        assert z[i] == Unquote(rendered)[i - 4 - |ctx.banner|];
      }
    }
  }

  /**
   * One shell fragment of the script, with the context values it
   * interpolates; `Render` gives its text.
   */
  datatype Fragment =
    | WriteZone(name: string, zonePath: string, zone: string)
    | ReplaceStanza(name: string, confPath: string, conf: string)
    | PurgeSubzoneStanzas(name: string, confPath: string)
    | RemoveSubzoneFiles(pattern: string)
    | RemoveZoneFile(zonePath: string)
    | StripStanza(name: string, confPath: string)
    | CompareConf(confPath: string)
    | InstallConf(confPath: string)
    | Reload(role: Role)

  /** The first word of a fragment's text: the command it runs (or the variable it sets). */
  function Command(f: Fragment): (c: string)
    ensures c != [] && (c[0] == 'r' <==> f.RemoveSubzoneFiles? || f.RemoveZoneFile?)
  {
    match f
    case WriteZone(_, _, _) => "echo"
    case ReplaceStanza(_, _, _) => "conf="
    case PurgeSubzoneStanzas(_, _) => "sed"
    case RemoveSubzoneFiles(_) => "rm"
    case RemoveZoneFile(_) => "rm"
    case StripStanza(_, _) => "sed"
    case CompareConf(_) => "diff"
    case InstallConf(_) => "mv"
    case Reload(_) => "if"
  }

  /** The text after the first word: the template with the values filled in. */
  function Arguments(f: Fragment): string
  {
    match f
    case WriteZone(name, zp, zone) => WriteZoneArguments(name, zp, zone)
    case ReplaceStanza(name, cp, conf) => ReplaceStanzaArguments(name, cp, conf)
    case PurgeSubzoneStanzas(name, cp) => PurgeArguments(name, cp)
    case RemoveSubzoneFiles(pattern) => " -f " + pattern
    case RemoveZoneFile(zp) => " -f " + zp + ";"
    case StripStanza(name, cp) => StripArguments(name, cp)
    case CompareConf(cp) => CompareArguments(cp)
    case InstallConf(cp) => " " + cp + ".tmp " + cp
    case Reload(role) => ReloadArguments(role)
  }

  function WriteZoneArguments(name: string, zp: string, zone: string): string
  {
    " -e '" + zone + "' > " + zp + ".tmp\n"
    + "diff -N -I'^\\s*;;' " + zp + " " + zp + ".tmp || UPDATED=1\n"
    + "# Because bind reload will not display any fucking error\n"
    + "named-checkzone -k fail -n fail " + name + " " + zp + ".tmp\n"
    + "mv " + zp + ".tmp " + zp + "\n"
  }

  function ReplaceStanzaArguments(name: string, cp: string, conf: string): string
  {
    "'" + conf + "'\n"
    + "sed '/zone \"" + name + "\".*/,/^\\s*};\\s*$/!d' " + cp
    + " | diff -B -I\"^\\s*//\" - <(echo \"${conf}\") || {\n"
    + "    sed -i -e '/zone\\s\\s*\"" + name + "\".*/,/^\\s*};/d' \\\n"
    + "           -e 'N; /^\\s*\\n\\s*$/d; P; D' " + cp + "\n"
    + "    echo \"${conf}\" >> " + cp + "\n"
    + "    UPDATED=1\n"
    + "}"
  }

  function PurgeArguments(name: string, cp: string): string
  {
    " -i -e '/zone\\s\\s*\".*\\." + name + "\".*/,/^\\s*};\\s*$/d' \\\n"
    + "       -e 'N; /^\\s*\\n\\s*$/d; P; D' " + cp
  }

  function StripArguments(name: string, cp: string): string
  {
    " -e '/zone\\s\\s*\"" + name + "\".*/,/^\\s*};\\s*$/d' \\\n"
    + "    -e 'N; /^\\s*\\n\\s*$/d; P; D' " + cp + " > " + cp + ".tmp"
  }

  function CompareArguments(cp: string): string
  {
    " -B -I\"^\\s*//\" " + cp + ".tmp " + cp + " || UPDATED=1"
  }

  /** The master reloads at once; a slave waits a second, in the background, for its master. */
  function ReloadArguments(role: Role): string
  {
    match role
    case Master => " [[ $UPDATED == 1 ]]; then service bind9 reload; fi"
    case Slave => " [[ $UPDATED == 1 ]]; then { sleep 1 && service bind9 reload; } & fi"
  }

  /** The text of a fragment as it goes into the script. */
  function Render(f: Fragment): string
  {
    Command(f) + Arguments(f)
  }

  /** Only the two removal fragments run `rm`; every other fragment starts with another command. */
  lemma RenderRemoves(f: Fragment)
    ensures StartsWith(Render(f), "rm ") <==> f.RemoveSubzoneFiles? || f.RemoveZoneFile?
  {
    if f.RemoveSubzoneFiles? || f.RemoveZoneFile? {
      RemovalRendersRm(f);
    } else {
      OtherRendersOther(f);
    }
  }

  lemma RemovalRendersRm(f: Fragment)
    requires f.RemoveSubzoneFiles? || f.RemoveZoneFile?
    ensures StartsWith(Render(f), "rm ")
  {
    assert Arguments(f)[0] == ' ';
    assert Render(f)[..3] == "rm ";
  }

  lemma OtherRendersOther(f: Fragment)
    requires !f.RemoveSubzoneFiles? && !f.RemoveZoneFile?
    ensures !StartsWith(Render(f), "rm ")
  {
    var c := Command(f);
    assert Render(f)[0] == c[0];
  }

  /**
   * The regular-expression substitution that builds `zone_subdomains_path`:
   * "*." goes right after the last "/" of the first line of `path` (the
   * pattern's "." does not cross a newline); a first line without "/"
   * leaves `path` as it is.
   */
  function SubzonePath(path: string): (r: string)
    ensures (forall i :: 0 <= i < LineEnd(path) ==> path[i] != '/') ==> r == path
    ensures (exists i :: 0 <= i < LineEnd(path) && path[i] == '/') ==>
      exists k :: 0 <= k < LineEnd(path) && path[k] == '/'
        && (forall j :: k < j < LineEnd(path) ==> path[j] != '/')
        && r == path[..k + 1] + "*." + path[k + 1..]
  {
    match RIndex(path, '/', LineEnd(path))
    case None => path
    case Some(k) => path[..k + 1] + "*." + path[k + 1..]
  }

  /** What `update_zone` appends. */
  function ZoneFragment(ctx: Context, rendered: string): Fragment
    requires ctx.MasterContext?
  {
    WriteZone(ctx.name, ctx.zonePath, ZoneText(ctx, rendered))
  }

  /** What `update_conf` appends, in order. */
  function UpdateConfFragments(ctx: Context): seq<Fragment>
  {
    [ReplaceStanza(ctx.name, ctx.confPath, ctx.conf), PurgeSubzoneStanzas(ctx.name, ctx.confPath)]
    + (if ctx.MasterContext? then [RemoveSubzoneFiles(SubzonePath(ctx.zonePath))] else [])
  }

  /** Names starting with these are never top-level domains, so they have no stanza. */
  predicate NeverTopLevel(name: string)
    requires name != ""
  {
    name[0] == '*' || name[0] == '_'
  }

  /** What `delete_conf` appends, in order; nothing when the name is empty (IndexError). */
  function DeleteConfFragments(ctx: Context): seq<Fragment>
  {
    if ctx.name == "" || NeverTopLevel(ctx.name) then []
    else [StripStanza(ctx.name, ctx.confPath), CompareConf(ctx.confPath), InstallConf(ctx.confPath)]
  }

  /** What `save` appends: on the master the zone file comes first, then the stanza fragments. */
  function SaveFragments(ctx: Context, rendered: string): seq<Fragment>
  {
    (if ctx.MasterContext? then [ZoneFragment(ctx, rendered)] else []) + UpdateConfFragments(ctx)
  }

  lemma AppendSaveFragments(ctx: Context, rendered: string, start: seq<Fragment>, script: seq<Fragment>)
    requires script == start + (if ctx.MasterContext? then [ZoneFragment(ctx, rendered)] else [])
                      + UpdateConfFragments(ctx)
    ensures script == start + SaveFragments(ctx, rendered)
  {
  }

  /** What `delete` appends: the master removes its zone file before anything else. */
  function DeleteFragments(ctx: Context): seq<Fragment>
  {
    (if ctx.MasterContext? then [RemoveZoneFile(ctx.zonePath)] else []) + DeleteConfFragments(ctx)
  }

  lemma AppendDeleteFragments(ctx: Context, start: seq<Fragment>, script: seq<Fragment>)
    requires script == start + (if ctx.MasterContext? then [RemoveZoneFile(ctx.zonePath)] else [])
                      + DeleteConfFragments(ctx)
    ensures script == start + DeleteFragments(ctx)
  {
  }

  /**
   * The master's save: zone file first, then the stanza replacement, the
   * purge of ex-top stanzas, and the removal of the subzone files at the
   * path with "*." inserted.
   */
  lemma MasterSaveOrder(ctx: Context, rendered: string)
    requires ctx.MasterContext?
    ensures var f := SaveFragments(ctx, rendered);
      && |f| == 4
      && f[0].WriteZone? && f[0].zone == ZoneText(ctx, rendered)
      && f[1].ReplaceStanza? && f[2].PurgeSubzoneStanzas?
      && f[3] == RemoveSubzoneFiles(SubzonePath(ctx.zonePath))
  {
  }

  /** A slave's save and delete never run `rm`. */
  lemma SlaveRemovesNothing(ctx: Context, rendered: string)
    requires ctx.SlaveContext?
    ensures forall f :: f in SaveFragments(ctx, rendered) + DeleteFragments(ctx) ==>
      !StartsWith(Render(f), "rm ")
  {
    forall f | f in SaveFragments(ctx, rendered) + DeleteFragments(ctx)
      ensures !StartsWith(Render(f), "rm ")
    {
      RenderRemoves(f);
    }
  }

  /** The values a fragment places between single quotes: the zone, the stanza, and the name inside `sed '...'`. */
  predicate QuotedSafe(f: Fragment)
  {
    && (f.WriteZone? ==> '\'' !in f.zone)
    && (f.ReplaceStanza? ==> '\'' !in f.conf && '\'' !in f.name)
    && (f.PurgeSubzoneStanzas? ==> '\'' !in f.name)
    && (f.StripStanza? ==> '\'' !in f.name)
  }

  /**
   * Every value that a fragment of save or delete places between single
   * quotes (the zone written by `echo -e '...'`, the stanza assigned by
   * `conf='...'`, the domain name inside the `sed '...'` expressions) is
   * free of single quotes, so it cannot end the quoted string early.
   */
  lemma QuotedValuesSafe(role: Role, settings: Settings, d: Domain, routed: seq<string>,
                         banner: string, rendered: string)
    ensures var ctx := GetContext(role, settings, d, routed, banner);
      forall f :: f in SaveFragments(ctx, rendered) + DeleteFragments(ctx) ==> QuotedSafe(f)
  {
    QuoteFreeFragments(GetContext(role, settings, d, routed, banner), rendered);
  }

  lemma QuoteFreeFragments(ctx: Context, rendered: string)
    requires QuoteFree(ctx)
    ensures forall f :: f in SaveFragments(ctx, rendered) + DeleteFragments(ctx) ==> QuotedSafe(f)
  {
    ZoneTextQuoteFree(ctx, rendered);
  }

  /**
   * `delete_conf` emits nothing for names starting with "*" or "_", and
   * otherwise the rewrite to a temporary file, the diff, and the move, in
   * that order.
   */
  lemma DeleteConfShape(ctx: Context)
    requires ctx.name != ""
    ensures NeverTopLevel(ctx.name) <==> DeleteConfFragments(ctx) == []
    ensures !NeverTopLevel(ctx.name) ==>
      var f := DeleteConfFragments(ctx);
      && |f| == 3
      && f[0] == StripStanza(ctx.name, ctx.confPath) && StartsWith(Render(f[0]), "sed")
      && f[1] == CompareConf(ctx.confPath) && StartsWith(Render(f[1]), "diff")
      && f[2] == InstallConf(ctx.confPath) && StartsWith(Render(f[2]), "mv")
  {
    var f := DeleteConfFragments(ctx);
    if !NeverTopLevel(ctx.name) {
      RenderStartsWithCommand(f[0]);
      RenderStartsWithCommand(f[1]);
      RenderStartsWithCommand(f[2]);
    }
  }

  lemma RenderStartsWithCommand(f: Fragment)
    ensures StartsWith(Render(f), Command(f))
  {
    assert Render(f)[..|Command(f)|] == Command(f);
  }

  /** The master's delete starts with removing the zone file, even when the name is empty. */
  lemma MasterDeleteRemovesZoneFirst(ctx: Context)
    requires ctx.MasterContext?
    ensures var f := DeleteFragments(ctx);
      f != [] && Render(f[0]) == "rm -f " + ctx.zonePath + ";"
      && |f| == 1 + |DeleteConfFragments(ctx)|
  {
  }

  /** A script compiler for one (backend, server) pair; `script` is its buffer of fragments. */
  class Bind9Backend {
    const role: Role
    const settings: Settings
    var script: seq<Fragment>

    constructor (role: Role, settings: Settings)
      ensures this.role == role && this.settings == settings && script == []
    {
      this.role := role;
      this.settings := settings;
      script := [];
    }

    /** `append`: one more fragment at the end of the script. */
    method Append(fragment: Fragment)
      modifies this
      ensures script == old(script) + [fragment]
    {
      script := script + [fragment];
    }

    /** `update_zone`: write the zone to a temporary file, compare, check it, move it in place. */
    method UpdateZone(ctx: Context, rendered: string)
      requires ctx.MasterContext?
      modifies this
      ensures script == old(script) + [ZoneFragment(ctx, rendered)]
    {
      var zone := ";; " + ctx.banner + "\n";
      zone := zone + Unquote(rendered);
      Append(WriteZone(ctx.name, ctx.zonePath, zone));
    }

    /** `update_conf`: replace the zone's stanza, purge stanzas of ex-top domains, remove their files. */
    method UpdateConf(ctx: Context)
      modifies this
      ensures script == old(script) + UpdateConfFragments(ctx)
    {
      Append(ReplaceStanza(ctx.name, ctx.confPath, ctx.conf));
      Append(PurgeSubzoneStanzas(ctx.name, ctx.confPath));
      if ctx.MasterContext? {
        var subzonesPath := SubzonePath(ctx.zonePath);
        Append(RemoveSubzoneFiles(subzonesPath));
      }
    }

    /**
     * `delete_conf`: drop the zone's stanza unless the name can never be a
     * top-level domain. `ok` is false when `name[0]` raises IndexError.
     */
    method DeleteConf(ctx: Context) returns (ok: bool)
      modifies this
      ensures ok <==> ctx.name != ""
      ensures script == old(script) + DeleteConfFragments(ctx)
    {
      if ctx.name == "" {
        return false;
      }
      ok := true;
      if NeverTopLevel(ctx.name) {
        return;
      }
      Append(StripStanza(ctx.name, ctx.confPath));
      Append(CompareConf(ctx.confPath));
      Append(InstallConf(ctx.confPath));
    }

    /**
     * `save`. The master computes the context, refreshes the serial, and
     * only then renders the zone with `render`; `serial` is the value
     * `refresh_serial` assigns. The refreshed domain is returned.
     */
    method Save(d: Domain, routed: seq<string>, banner: string, serial: int,
                render: Domain -> string) returns (refreshed: Domain)
      modifies this
      ensures refreshed == if role == Master then d.(serial := serial) else d
      ensures script == old(script) + SaveFragments(GetContext(role, settings, d, routed, banner),
                                                    render(refreshed))
    {
      var ctx := GetContext(role, settings, d, routed, banner);
      ghost var start := script;
      refreshed := d;
      if ctx.MasterContext? {
        refreshed := d.(serial := serial);
        UpdateZone(ctx, render(refreshed));
      }
      UpdateConf(ctx);
      AppendSaveFragments(ctx, render(refreshed), start, script);
    }

    /** `delete`. `ok` is false when `delete_conf` raised IndexError on an empty name. */
    method Delete(d: Domain, routed: seq<string>, banner: string) returns (ok: bool)
      modifies this
      ensures ok <==> d.name != ""
      ensures script == old(script) + DeleteFragments(GetContext(role, settings, d, routed, banner))
    {
      var ctx := GetContext(role, settings, d, routed, banner);
      ghost var start := script;
      if ctx.MasterContext? {
        Append(RemoveZoneFile(ctx.zonePath));
      }
      ok := DeleteConf(ctx);
      AppendDeleteFragments(ctx, start, script);
    }

    /** `commit`: the reload, guarded by the UPDATED flag, goes last. */
    method Commit()
      modifies this
      ensures script == old(script) + [Reload(role)]
    {
      Append(Reload(role));
    }
  }
}
