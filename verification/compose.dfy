/**
 * The docker-compose fragments Tokaido writes into `docker-compose.tok.yml`.
 * Every builder returns the text of one YAML fragment. The reads of the
 * global configuration become parameters: `fusion` for a sync service set to
 * "fusion", `project` for the project name. The home directory and the files
 * that exist on the host are inputs too.
 */
module ComposeTemplates {
  import opened Wrappers
  import opened Text

  // ---------------------------------------------------------------------
  // PHP version and image stability
  // ---------------------------------------------------------------------

  /**
   * calcPhpVersionString: the version without its dot. Any other version is
   * fatal to the process, which None stands for.
   */
  function PhpVersionString(version: string): (r: Option<string>)
    ensures r.Some? <==> version == "7.1" || version == "7.2"
    ensures r.Some? ==> |version| == 3 && version[1] == '.' && r.value == version[..1] + version[2..]
  {
    if version == "7.1" then Some("71")
    else if version == "7.2" then Some("72")
    else None
  }

  /** StabilityLevel: the image of every service, each tagged with `stability`. */
  function StabilityLevel(phpVersion: string, stability: string, fusion: bool): Option<string>
  {
    match PhpVersionString(phpVersion)
    case None => None
    case Some(v) =>
      if fusion then
        Some("services:"
          + ImageEntry("sync", "tokaido/sync", stability)
          + ImageEntry("syslog", "tokaido/syslog", stability)
          + ImageEntry("haproxy", "tokaido/haproxy", stability)
          + ImageEntry("varnish", "tokaido/varnish", stability)
          + ImageEntry("nginx", "tokaido/nginx", stability)
          + ImageEntry("fpm", "tokaido/php" + v + "-fpm", stability)
          + ImageEntry("drush", "tokaido/admin" + v + "-heavy", stability))
      else
        Some("services:"
          + ImageEntry("syslog", "tokaido/syslog", stability)
          + ImageEntry("haproxy", "tokaido/haproxy", stability)
          + ImageEntry("varnish", "tokaido/varnish", stability)
          + ImageEntry("nginx", "tokaido/nginx", stability)
          + ImageEntry("fpm", "tokaido/php" + v + "-fpm", stability)
          + ImageEntry("drush", "tokaido/admin" + v + "-heavy", stability))
  }

  /** The two lines that give one service its image: `  <service>:` and `    image: <image>:<tag>`. */
  function ImageEntry(service: string, image: string, tag: string): string
  {
    "\n  " + service + ":\n    image: " + image + ":" + tag
  }

  /** `head` followed by the image entry of each service (name, untagged image), in order. */
  function RenderImages(head: string, services: seq<(string, string)>, tag: string): string
    decreases |services|
  {
    if services == [] then head
    else
      var last := services[|services| - 1];
      RenderImages(head, services[..|services| - 1], tag) + ImageEntry(last.0, last.1, tag)
  }

  /** The services whose image StabilityLevel pins, in the order it lists them. */
  function StabilityServices(v: string, fusion: bool): seq<(string, string)>
  {
    (if fusion then [("sync", "tokaido/sync")] else [])
    + [ ("syslog", "tokaido/syslog"), ("haproxy", "tokaido/haproxy"), ("varnish", "tokaido/varnish"),
        ("nginx", "tokaido/nginx"), ("fpm", "tokaido/php" + v + "-fpm"), ("drush", "tokaido/admin" + v + "-heavy") ]
  }

  lemma RenderImagesSnoc(head: string, services: seq<(string, string)>, s: (string, string), tag: string)
    ensures RenderImages(head, services + [s], tag) == RenderImages(head, services, tag) + ImageEntry(s.0, s.1, tag)
  {
    assert (services + [s])[..|services|] == services;
  }

  /**
   * StabilityLevel fails exactly for an unsupported PHP version; otherwise it
   * renders the services of StabilityServices in order (sync first, only under
   * fusion; then syslog, haproxy, varnish, nginx, fpm, drush), every image
   * tagged with the same stability.
   */
  lemma StabilityLevelRendersServices(phpVersion: string, stability: string, fusion: bool)
    ensures StabilityLevel(phpVersion, stability, fusion).None? <==> PhpVersionString(phpVersion).None?
    ensures PhpVersionString(phpVersion).Some? ==>
      StabilityLevel(phpVersion, stability, fusion) ==
      Some(RenderImages("services:", StabilityServices(PhpVersionString(phpVersion).value, fusion), stability))
  {
    if PhpVersionString(phpVersion).Some? {
      var v := PhpVersionString(phpVersion).value;
      var h, t := "services:", stability;
      var sync := if fusion then [("sync", "tokaido/sync")] else [];
      var s1, s2, s3 := ("syslog", "tokaido/syslog"), ("haproxy", "tokaido/haproxy"), ("varnish", "tokaido/varnish");
      var s4, s5, s6 := ("nginx", "tokaido/nginx"), ("fpm", "tokaido/php" + v + "-fpm"), ("drush", "tokaido/admin" + v + "-heavy");
      var l1 := sync + [s1];
      var l2 := l1 + [s2];
      var l3 := l2 + [s3];
      var l4 := l3 + [s4];
      var l5 := l4 + [s5];
      var l6 := l5 + [s6];
      assert StabilityServices(v, fusion) == l6;
      var r0 := RenderImages(h, sync, t);
      assert r0 == if fusion then h + ImageEntry("sync", "tokaido/sync", t) else h by {
        if fusion {
          assert sync == [] + [("sync", "tokaido/sync")];
          RenderImagesSnoc(h, [], ("sync", "tokaido/sync"), t);
        }
      }
      var r1 := RenderImages(h, l1, t);
      assert r1 == r0 + ImageEntry(s1.0, s1.1, t) by { RenderImagesSnoc(h, sync, s1, t); }
      var r2 := RenderImages(h, l2, t);
      assert r2 == r1 + ImageEntry(s2.0, s2.1, t) by { RenderImagesSnoc(h, l1, s2, t); }
      var r3 := RenderImages(h, l3, t);
      assert r3 == r2 + ImageEntry(s3.0, s3.1, t) by { RenderImagesSnoc(h, l2, s3, t); }
      var r4 := RenderImages(h, l4, t);
      assert r4 == r3 + ImageEntry(s4.0, s4.1, t) by { RenderImagesSnoc(h, l3, s4, t); }
      var r5 := RenderImages(h, l5, t);
      assert r5 == r4 + ImageEntry(s5.0, s5.1, t) by { RenderImagesSnoc(h, l4, s5, t); }
      var r6 := RenderImages(h, l6, t);
      assert r6 == r5 + ImageEntry(s6.0, s6.1, t) by { RenderImagesSnoc(h, l5, s6, t); }
    }
  }

  /**
   * Under fusion StabilityLevel declares the sync service first and is
   * otherwise the text without fusion, service for service.
   */
  lemma StabilityLevelFusionAddsSync(phpVersion: string, stability: string)
    ensures StabilityLevel(phpVersion, stability, true).Some? <==> StabilityLevel(phpVersion, stability, false).Some?
    ensures StabilityLevel(phpVersion, stability, true).Some? ==>
      var withSync := StabilityLevel(phpVersion, stability, true).value;
      var without := StabilityLevel(phpVersion, stability, false).value;
      && "services:" <= without
      && withSync == "services:" + ImageEntry("sync", "tokaido/sync", stability) + without[|"services:"|..]
  {
  }

  // ---------------------------------------------------------------------
  // Drupal settings
  // ---------------------------------------------------------------------

  /** The line `    <service>:` and the line `      environment:` under it. */
  function EnvironmentHeader(service: string): string
  {
    "\n    " + service + ":\n      environment:"
  }

  /** The line `        <name>: <value>` of an environment block. */
  function Variable(name: string, value: string): string
  {
    "\n        " + name + ": " + value
  }

  /** DrupalSettings: the Drupal root of every service, and the project name for drush. */
  function DrupalSettings(drupalRoot: string, projectName: string, fusion: bool): string
  {
    if fusion then
      "services:"
      + EnvironmentHeader("fpm") + Variable("DRUPAL_ROOT", drupalRoot)
      + EnvironmentHeader("nginx") + Variable("DRUPAL_ROOT", drupalRoot)
      + EnvironmentHeader("drush") + Variable("DRUPAL_ROOT", drupalRoot) + Variable("PROJECT_NAME", projectName)
      + EnvironmentHeader("kishu") + Variable("DRUPAL_ROOT", drupalRoot)
    else
      "services:"
      + EnvironmentHeader("fpm") + Variable("DRUPAL_ROOT", drupalRoot)
      + EnvironmentHeader("nginx") + Variable("DRUPAL_ROOT", drupalRoot)
      + EnvironmentHeader("drush") + Variable("DRUPAL_ROOT", drupalRoot) + Variable("PROJECT_NAME", projectName)
  }

  /** `head` followed by one environment line per variable (name, value), in order. */
  function VariableLines(head: string, vars: seq<(string, string)>): string
    decreases |vars|
  {
    if vars == [] then head
    else
      var last := vars[|vars| - 1];
      VariableLines(head, vars[..|vars| - 1]) + Variable(last.0, last.1)
  }

  /** `head` followed by each service's environment block (service, variables), in order. */
  function RenderEnvironments(head: string, services: seq<(string, seq<(string, string)>)>): string
    decreases |services|
  {
    if services == [] then head
    else
      var last := services[|services| - 1];
      VariableLines(RenderEnvironments(head, services[..|services| - 1]) + EnvironmentHeader(last.0), last.1)
  }

  /** The environment DrupalSettings gives each service, in order. */
  function DrupalEnvironments(drupalRoot: string, projectName: string, fusion: bool): seq<(string, seq<(string, string)>)>
  {
    [ ("fpm", [("DRUPAL_ROOT", drupalRoot)]),
      ("nginx", [("DRUPAL_ROOT", drupalRoot)]),
      ("drush", [("DRUPAL_ROOT", drupalRoot), ("PROJECT_NAME", projectName)]) ]
    + (if fusion then [("kishu", [("DRUPAL_ROOT", drupalRoot)])] else [])
  }

  lemma RenderEnvironmentsSnoc(head: string, services: seq<(string, seq<(string, string)>)>, s: (string, seq<(string, string)>))
    ensures RenderEnvironments(head, services + [s]) ==
      VariableLines(RenderEnvironments(head, services) + EnvironmentHeader(s.0), s.1)
  {
    assert (services + [s])[..|services|] == services;
  }

  lemma OneVariable(head: string, v: (string, string))
    ensures VariableLines(head, [v]) == head + Variable(v.0, v.1)
  {
    assert [v][..0] == [];
  }

  lemma TwoVariables(head: string, v: (string, string), w: (string, string))
    ensures VariableLines(head, [v, w]) == head + Variable(v.0, v.1) + Variable(w.0, w.1)
  {
    assert [v, w][..1] == [v];
    OneVariable(head, v);
  }

  /**
   * DrupalSettings renders DrupalEnvironments: DRUPAL_ROOT first for fpm,
   * nginx and drush (and kishu under fusion), then PROJECT_NAME for drush.
   */
  lemma DrupalSettingsRendersEnvironments(drupalRoot: string, projectName: string, fusion: bool)
    ensures DrupalSettings(drupalRoot, projectName, fusion) ==
      RenderEnvironments("services:", DrupalEnvironments(drupalRoot, projectName, fusion))
    ensures forall i :: 0 <= i < |DrupalEnvironments(drupalRoot, projectName, fusion)| ==>
      DrupalEnvironments(drupalRoot, projectName, fusion)[i].1[0] == ("DRUPAL_ROOT", drupalRoot)
  {
    var h, root := "services:", ("DRUPAL_ROOT", drupalRoot);
    var project := ("PROJECT_NAME", projectName);
    var fpm, nginx, drush := ("fpm", [root]), ("nginx", [root]), ("drush", [root, project]);
    var r0 := RenderEnvironments(h, []);
    var r1 := RenderEnvironments(h, [fpm]);
    assert r1 == r0 + EnvironmentHeader("fpm") + Variable(root.0, root.1) by {
      assert [] + [fpm] == [fpm];
      RenderEnvironmentsSnoc(h, [], fpm);
      OneVariable(r0 + EnvironmentHeader("fpm"), root);
    }
    var r2 := RenderEnvironments(h, [fpm, nginx]);
    assert r2 == r1 + EnvironmentHeader("nginx") + Variable(root.0, root.1) by {
      assert [fpm] + [nginx] == [fpm, nginx];
      RenderEnvironmentsSnoc(h, [fpm], nginx);
      OneVariable(r1 + EnvironmentHeader("nginx"), root);
    }
    var r3 := RenderEnvironments(h, [fpm, nginx, drush]);
    assert r3 == r2 + EnvironmentHeader("drush") + Variable(root.0, root.1) + Variable(project.0, project.1) by {
      assert [fpm, nginx] + [drush] == [fpm, nginx, drush];
      RenderEnvironmentsSnoc(h, [fpm, nginx], drush);
      TwoVariables(r2 + EnvironmentHeader("drush"), root, project);
    }
    if fusion {
      var kishu := ("kishu", [root]);
      assert DrupalEnvironments(drupalRoot, projectName, true) == [fpm, nginx, drush] + [kishu];
      assert RenderEnvironments(h, [fpm, nginx, drush] + [kishu])
          == r3 + EnvironmentHeader("kishu") + Variable(root.0, root.1) by {
        RenderEnvironmentsSnoc(h, [fpm, nginx, drush], kishu);
        OneVariable(r3 + EnvironmentHeader("kishu"), root);
      }
    } else {
      assert DrupalEnvironments(drupalRoot, projectName, false) == [fpm, nginx, drush];
    }
  }

  /** The kishu service's environment, which only the fusion settings carry. */
  function KishuEnvironment(drupalRoot: string): string
  {
    EnvironmentHeader("kishu") + Variable("DRUPAL_ROOT", drupalRoot)
  }

  /**
   * The settings without fusion are a strict prefix of the fusion settings,
   * which add exactly the kishu environment.
   */
  lemma DrupalSettingsFusionAddsKishu(drupalRoot: string, projectName: string)
    ensures DrupalSettings(drupalRoot, projectName, true)
      == DrupalSettings(drupalRoot, projectName, false) + KishuEnvironment(drupalRoot)
    ensures DrupalSettings(drupalRoot, projectName, false) < DrupalSettings(drupalRoot, projectName, true)
  {
  }

  // ---------------------------------------------------------------------
  // Optional services
  // ---------------------------------------------------------------------

  /** The labels that mark a container as managed by Tokaido for a project. */
  function ManagedLabels(project: string): string
  {
    "\n    labels:\n      io.tokaido.managed: local\n      io.tokaido.project: " + project
  }

  function EnableSolr(version: string, project: string): string
  {
    "services:" + ImageEntry("solr", "tokaido/solr", version)
    + "\n    ports:\n      - \"8983\"\n    entrypoint:\n      - solr-precreate\n      - drupal\n      - /opt/solr/server/solr/configsets/search-api-solr/"
    + ManagedLabels(project)
  }

  function EnableRedis(version: string, project: string): string
  {
    "services:" + ImageEntry("redis", "redis", version) + "\n    ports:\n      - \"6379\"" + ManagedLabels(project)
  }

  function EnableMailhog(version: string, project: string): string
  {
    "services:" + ImageEntry("mailhog", "mailhog/mailhog", version) + "\n    ports:\n      - \"1025\"\n      - \"8025\""
    + ManagedLabels(project)
  }

  function EnableAdminer(version: string, project: string): string
  {
    "services:" + ImageEntry("adminer", "adminer", version) + "\n    ports:\n      - \"8080\"" + ManagedLabels(project)
  }

  function EnableMemcache(version: string, project: string): string
  {
    "services:\n  memcache:" + ManagedLabels(project) + "\n    image: memcached:" + version
  }

  /** The solr fragment names its image first and ends with the project's labels. */
  lemma EnableSolrLabelled(version: string, project: string)
    ensures "services:" + ImageEntry("solr", "tokaido/solr", version) <= EnableSolr(version, project)
    ensures EndsWith(EnableSolr(version, project), ManagedLabels(project))
  {
    var text := EnableSolr(version, project);
    var labels := ManagedLabels(project);
    EndsWithAppend(text[..|text| - |labels|], labels);
  }

  /** The redis fragment names its image first and ends with the project's labels. */
  lemma EnableRedisLabelled(version: string, project: string)
    ensures "services:" + ImageEntry("redis", "redis", version) <= EnableRedis(version, project)
    ensures EndsWith(EnableRedis(version, project), ManagedLabels(project))
  {
    var text := EnableRedis(version, project);
    var labels := ManagedLabels(project);
    EndsWithAppend(text[..|text| - |labels|], labels);
  }

  /** The mailhog fragment names its image first and ends with the project's labels. */
  lemma EnableMailhogLabelled(version: string, project: string)
    ensures "services:" + ImageEntry("mailhog", "mailhog/mailhog", version) <= EnableMailhog(version, project)
    ensures EndsWith(EnableMailhog(version, project), ManagedLabels(project))
  {
    var text := EnableMailhog(version, project);
    var labels := ManagedLabels(project);
    EndsWithAppend(text[..|text| - |labels|], labels);
  }

  /** The adminer fragment names its image first and ends with the project's labels. */
  lemma EnableAdminerLabelled(version: string, project: string)
    ensures "services:" + ImageEntry("adminer", "adminer", version) <= EnableAdminer(version, project)
    ensures EndsWith(EnableAdminer(version, project), ManagedLabels(project))
  {
    var text := EnableAdminer(version, project);
    var labels := ManagedLabels(project);
    EndsWithAppend(text[..|text| - |labels|], labels);
  }

  /**
   * The memcache fragment is the only one that lists the project's labels
   * before its image: it starts with them and ends with the image line.
   */
  lemma EnableMemcacheLabelled(version: string, project: string)
    ensures "services:\n  memcache:" + ManagedLabels(project) <= EnableMemcache(version, project)
    ensures EndsWith(EnableMemcache(version, project), "\n    image: memcached:" + version)
  {
    var image := "\n    image: memcached:" + version;
    var head := "services:\n  memcache:" + ManagedLabels(project);
    assert EnableMemcache(version, project) == head + image;
    EndsWithAppend(head, image);
  }

  // ---------------------------------------------------------------------
  // Volumes and the database
  // ---------------------------------------------------------------------

  const VolumeDeclareHead := "volumes:\n  "
  /** What follows a declared volume's name, up to the value of `external`. */
  const ExternalKey := ":\n    external: "

  function ExternalVolumeDeclare(name: string): string
  {
    VolumeDeclareHead + name + ExternalKey + "true\n"
  }

  function InternalVolumeDeclare(name: string): string
  {
    VolumeDeclareHead + name + ExternalKey + "false\n"
  }

  /** Reads a volume declaration back: the volume's name and whether it is external. */
  function ParseVolumeDeclare(text: string): Option<(string, bool)>
  {
    match Unwrap(text, VolumeDeclareHead, ExternalKey + "true\n")
    case Some(name) => Some((name, true))
    case None =>
      match Unwrap(text, VolumeDeclareHead, ExternalKey + "false\n")
      case Some(name) => Some((name, false))
      case None => None
  }

  /** An external volume declaration reads back to its name, marked external. */
  lemma ExternalVolumeDeclareRoundTrip(name: string)
    ensures ParseVolumeDeclare(ExternalVolumeDeclare(name)) == Some((name, true))
  {
    assert ExternalVolumeDeclare(name) == VolumeDeclareHead + name + (ExternalKey + "true\n");
    UnwrapWrap(VolumeDeclareHead, name, ExternalKey + "true\n");
  }

  /**
   * An internal volume declaration reads back to its name, marked internal;
   * it differs from the external declaration of the same name.
   */
  lemma InternalVolumeDeclareRoundTrip(name: string)
    ensures ParseVolumeDeclare(InternalVolumeDeclare(name)) == Some((name, false))
    ensures InternalVolumeDeclare(name) != ExternalVolumeDeclare(name)
  {
    var internal := InternalVolumeDeclare(name);
    var tail := ExternalKey + "true\n";
    assert internal == VolumeDeclareHead + name + (ExternalKey + "false\n");
    UnwrapWrap(VolumeDeclareHead, name, ExternalKey + "false\n");
    assert internal[|internal| - |tail|] == ExternalKey[1] == '\n';
    assert tail[0] == ':';
    assert internal[|internal| - |tail|..] != tail;
  }

  const MysqlVolumeHead := "services:\n  mysql:\n    volumes:\n      - "
  const MysqlDataTarget := ":/var/lib/mysql\n"

  function MysqlVolumeAttach(name: string): string
  {
    MysqlVolumeHead + name + MysqlDataTarget
  }

  /** The volume a MysqlVolumeAttach fragment mounts as the MySQL data directory. */
  function MysqlDataVolume(text: string): Option<string>
  {
    Unwrap(text, MysqlVolumeHead, MysqlDataTarget)
  }

  lemma MysqlVolumeAttachRoundTrip(name: string)
    ensures MysqlDataVolume(MysqlVolumeAttach(name)) == Some(name)
  {
  }

  const DatabaseHead := "services:\n  mysql:\n    image: "

  /** SetDatabase: the image reference of the mysql service. */
  function SetDatabase(image: string, version: string): string
  {
    DatabaseHead + image + ":" + version + "\n"
  }

  /**
   * Reads the database image and version back, splitting at the last colon:
   * a tag never holds a colon, while a registry-qualified image name can.
   */
  function ParseDatabase(text: string): Option<(string, string)>
  {
    match Unwrap(text, DatabaseHead, "\n")
    case None => None
    case Some(reference) => SplitAtLast(reference, ':')
  }

  /**
   * Any image name, registry-qualified ones included, and a version without
   * a colon are read back unchanged.
   */
  lemma SetDatabaseRoundTrip(image: string, version: string)
    requires ':' !in version
    ensures ParseDatabase(SetDatabase(image, version)) == Some((image, version))
  {
    var reference := image + ":" + version;
    assert SetDatabase(image, version) == DatabaseHead + reference + "\n";
    UnwrapWrap(DatabaseHead, reference, "\n");
    assert reference == image + [':'] + version;
    SplitAtLastJoin(image, ':', version);
  }

  // ---------------------------------------------------------------------
  // Site volumes
  // ---------------------------------------------------------------------

  /** The line `  <service>:` and the line `    volumes:` under it. */
  function VolumesHeader(service: string): string
  {
    "\n  " + service + ":\n    volumes:"
  }

  /** One line `      - <mount>` of a service's volume list. */
  function MountLine(mount: string): string
  {
    "\n      - " + mount
  }

  const ComposerCacheMount := "tok_composer_cache:/home/tok/.composer/cache"

  /** `head` followed by one volume line per mount, in order. */
  function MountLines(head: string, mounts: seq<string>): string
    decreases |mounts|
  {
    if mounts == [] then head else MountLines(head, mounts[..|mounts| - 1]) + MountLine(mounts[|mounts| - 1])
  }

  /** `head` followed by each service's volume list (service, mounts), in order. */
  function RenderVolumes(head: string, services: seq<(string, seq<string>)>): string
    decreases |services|
  {
    if services == [] then head
    else
      var last := services[|services| - 1];
      MountLines(RenderVolumes(head, services[..|services| - 1]) + VolumesHeader(last.0), last.1)
  }

  lemma MountLinesSnoc(head: string, mounts: seq<string>, m: string)
    ensures MountLines(head, mounts + [m]) == MountLines(head, mounts) + MountLine(m)
  {
    assert (mounts + [m])[..|mounts|] == mounts;
  }

  lemma {:induction false} MountLinesAppend(head: string, a: seq<string>, b: seq<string>)
    ensures MountLines(head, a + b) == MountLines(MountLines(head, a), b)
    decreases |b|
  {
    if b == [] {
      assert a + b == a;
    } else {
      var init := b[..|b| - 1];
      assert a + b == (a + init) + [b[|b| - 1]];
      assert b == init + [b[|b| - 1]];
      MountLinesSnoc(head, a + init, b[|b| - 1]);
      MountLinesSnoc(MountLines(head, a), init, b[|b| - 1]);
      MountLinesAppend(head, a, init);
    }
  }

  lemma OneMount(head: string, m: string)
    ensures MountLines(head, [m]) == head + MountLine(m)
  {
    assert [m][..0] == [];
  }

  lemma TwoMounts(head: string, m: string, n: string)
    ensures MountLines(head, [m, n]) == head + MountLine(m) + MountLine(n)
  {
    assert [m, n][..1] == [m];
    OneMount(head, m);
  }

  lemma RenderVolumesSnoc(head: string, services: seq<(string, seq<string>)>, s: (string, seq<string>))
    ensures RenderVolumes(head, services + [s]) == MountLines(RenderVolumes(head, services) + VolumesHeader(s.0), s.1)
  {
    assert (services + [s])[..|services|] == services;
  }

  /** Each mount is one line: the volume list adds one newline per mount. */
  lemma {:induction false} MountLinesOnePerMount(head: string, mounts: seq<string>)
    requires forall i :: 0 <= i < |mounts| ==> '\n' !in mounts[i]
    ensures CountChar(MountLines(head, mounts), '\n') == CountChar(head, '\n') + |mounts|
    decreases |mounts|
  {
    if mounts != [] {
      var last := mounts[|mounts| - 1];
      MountLinesOnePerMount(head, mounts[..|mounts| - 1]);
      CountCharAppend(MountLines(head, mounts[..|mounts| - 1]), MountLine(last), '\n');
      CountCharAppend("\n      - ", last, '\n');
      CountCharAbsent(last, '\n');
    }
  }

  function TokaidoFusionSiteVolumeAttach(path: string, name: string): string
  {
    "services:"
    + VolumesHeader("sync") + MountLine(path + ":/tokaido/host-volume") + MountLine(name + ":/tokaido/site")
    + VolumesHeader("drush") + MountLine(name + ":/tokaido/site") + MountLine(ComposerCacheMount)
    + VolumesHeader("nginx") + MountLine(name + ":/tokaido/site")
    + VolumesHeader("fpm") + MountLine(name + ":/tokaido/site")
    + VolumesHeader("kishu") + MountLine(name + ":/tokaido/site")
    + "\n"
  }

  /** The volumes of each service under fusion, in order. */
  function FusionSiteMounts(path: string, name: string): seq<(string, seq<string>)>
  {
    [ ("sync", [path + ":/tokaido/host-volume", name + ":/tokaido/site"]),
      ("drush", [name + ":/tokaido/site", ComposerCacheMount]),
      ("nginx", [name + ":/tokaido/site"]),
      ("fpm", [name + ":/tokaido/site"]),
      ("kishu", [name + ":/tokaido/site"]) ]
  }

  /**
   * Under fusion the sync service mounts the host path, and every service
   * (sync, drush, nginx, fpm, kishu) mounts the site volume at /tokaido/site.
   */
  lemma FusionSiteVolumesMountSite(path: string, name: string)
    ensures TokaidoFusionSiteVolumeAttach(path, name) == RenderVolumes("services:", FusionSiteMounts(path, name)) + "\n"
    ensures forall i :: 0 <= i < |FusionSiteMounts(path, name)| ==>
      name + ":/tokaido/site" in FusionSiteMounts(path, name)[i].1
    ensures path + ":/tokaido/host-volume" in FusionSiteMounts(path, name)[0].1
  {
    var site := name + ":/tokaido/site";
    var ms := FusionSiteMounts(path, name);
    assert ms[..0] + [ms[0]] == ms[..1];
    assert ms[..1] + [ms[1]] == ms[..2];
    assert ms[..2] + [ms[2]] == ms[..3];
    assert ms[..3] + [ms[3]] == ms[..4];
    assert ms[..4] + [ms[4]] == ms;
    RenderVolumesSnoc("services:", ms[..0], ms[0]);
    RenderVolumesSnoc("services:", ms[..1], ms[1]);
    RenderVolumesSnoc("services:", ms[..2], ms[2]);
    RenderVolumesSnoc("services:", ms[..3], ms[3]);
    RenderVolumesSnoc("services:", ms[..4], ms[4]);
    TwoMounts(RenderVolumes("services:", ms[..0]) + VolumesHeader("sync"), path + ":/tokaido/host-volume", site);
    TwoMounts(RenderVolumes("services:", ms[..1]) + VolumesHeader("drush"), site, ComposerCacheMount);
    OneMount(RenderVolumes("services:", ms[..2]) + VolumesHeader("nginx"), site);
    OneMount(RenderVolumes("services:", ms[..3]) + VolumesHeader("fpm"), site);
    OneMount(RenderVolumes("services:", ms[..4]) + VolumesHeader("kishu"), site);
  }

  /** The volumes every site mounts without fusion, before any optional mount. */
  function DockerSiteVolumes(path: string): string
  {
    "services:"
    + VolumesHeader("nginx") + MountLine(path + ":/tokaido/site")
    + VolumesHeader("fpm") + MountLine(path + ":/tokaido/site")
    + VolumesHeader("drush") + MountLine(path + ":/tokaido/site") + MountLine(ComposerCacheMount)
  }

  /**
   * The optional mounts as the source adds them: the .gitconfig mount when
   * `home/.gitconfig` exists, then, when the probed path
   * `home/.drush:/home/tok/.drush` exists, a mount of .gitconfig at
   * /home/tok/.drush.
   */
  function AsWrittenMounts(home: string, existing: set<string>): seq<string>
  {
    (if home + "/.gitconfig" in existing then [home + "/.gitconfig:/home/tok/.gitconfig"] else [])
    + (if home + "/.drush:/home/tok/.drush" in existing then [home + "/.gitconfig:/home/tok/.drush"] else [])
  }

  /**
   * TokaidoDockerSiteVolumeAttach: the site volumes, extended by one line
   * for each optional file found. `home` is None when the home directory
   * cannot be resolved, which is fatal.
   */
  method TokaidoDockerSiteVolumeAttach(path: string, home: Option<string>, existing: set<string>)
    returns (r: Option<string>)
    ensures r.None? <==> home.None?
    ensures home.Some? ==> r.value == MountLines(DockerSiteVolumes(path), AsWrittenMounts(home.value, existing))
  {
    if home.None? {
      return None;
    }
    var h := home.value;
    var vols := DockerSiteVolumes(path);
    ghost var added: seq<string> := [];
    if h + "/.gitconfig" in existing {
      vols := vols + MountLine(h + "/.gitconfig:/home/tok/.gitconfig");
      MountLinesSnoc(DockerSiteVolumes(path), added, h + "/.gitconfig:/home/tok/.gitconfig");
      added := added + [h + "/.gitconfig:/home/tok/.gitconfig"];
    }
    if h + "/.drush:/home/tok/.drush" in existing {
      vols := vols + MountLine(h + "/.gitconfig:/home/tok/.drush");
      MountLinesSnoc(DockerSiteVolumes(path), added, h + "/.gitconfig:/home/tok/.drush");
      added := added + [h + "/.gitconfig:/home/tok/.drush"];
    }
    assert added == AsWrittenMounts(h, existing);
    return Some(vols);
  }

  /**
   * The site volumes with extra mounts: nginx and fpm mount the site, and
   * drush mounts the site, the composer cache and then the extra mounts.
   */
  lemma DockerSiteVolumesExtendDrush(path: string, extra: seq<string>)
    ensures MountLines(DockerSiteVolumes(path), extra) ==
      RenderVolumes("services:", [("nginx", [path + ":/tokaido/site"]), ("fpm", [path + ":/tokaido/site"]),
                                  ("drush", [path + ":/tokaido/site", ComposerCacheMount] + extra)])
  {
    var h, site := "services:", path + ":/tokaido/site";
    var nginx, fpm := ("nginx", [site]), ("fpm", [site]);
    var drush := ("drush", [site, ComposerCacheMount] + extra);
    var r0 := RenderVolumes(h, []);
    var r1 := RenderVolumes(h, [nginx]);
    assert r1 == r0 + VolumesHeader("nginx") + MountLine(site) by {
      assert [] + [nginx] == [nginx];
      RenderVolumesSnoc(h, [], nginx);
      OneMount(r0 + VolumesHeader("nginx"), site);
    }
    var r2 := RenderVolumes(h, [nginx, fpm]);
    assert r2 == r1 + VolumesHeader("fpm") + MountLine(site) by {
      assert [nginx] + [fpm] == [nginx, fpm];
      RenderVolumesSnoc(h, [nginx], fpm);
      OneMount(r1 + VolumesHeader("fpm"), site);
    }
    var d := r2 + VolumesHeader("drush");
    assert MountLines(d, [site, ComposerCacheMount]) == DockerSiteVolumes(path) by {
      TwoMounts(d, site, ComposerCacheMount);
    }
    assert RenderVolumes(h, [nginx, fpm, drush]) == MountLines(d, [site, ComposerCacheMount] + extra) by {
      assert [nginx, fpm] + [drush] == [nginx, fpm, drush];
      RenderVolumesSnoc(h, [nginx, fpm], drush);
    }
    MountLinesAppend(d, [site, ComposerCacheMount], extra);
  }

  /** Each optional mount found adds exactly one line to the site volumes. */
  lemma DockerSiteVolumesOneLinePerMount(path: string, extra: seq<string>)
    requires forall i :: 0 <= i < |extra| ==> '\n' !in extra[i]
    ensures CountChar(MountLines(DockerSiteVolumes(path), extra), '\n') == CountChar(DockerSiteVolumes(path), '\n') + |extra|
  {
    MountLinesOnePerMount(DockerSiteVolumes(path), extra);
  }

  /** One optional mount per file found, the .gitconfig mount first. */
  lemma AsWrittenMountsOnePerProbe(home: string, existing: set<string>)
    ensures |AsWrittenMounts(home, existing)| ==
      (if home + "/.gitconfig" in existing then 1 else 0) + (if home + "/.drush:/home/tok/.drush" in existing then 1 else 0)
    ensures home + "/.gitconfig" in existing ==>
      AsWrittenMounts(home, existing)[0] == home + "/.gitconfig:/home/tok/.gitconfig"
    ensures '\n' !in home ==>
      forall i :: 0 <= i < |AsWrittenMounts(home, existing)| ==> '\n' !in AsWrittenMounts(home, existing)[i]
  {
  }

  /**
   * As written, every optional mount takes its source from .gitconfig: the
   * .drush directory is never mounted.
   */
  lemma AsWrittenNeverMountsDrush(home: string, existing: set<string>)
    ensures forall i :: 0 <= i < |AsWrittenMounts(home, existing)| ==>
      home + "/.gitconfig:" <= AsWrittenMounts(home, existing)[i]
  {
  }

  /**
   * The optional mounts the comment above them describes: .gitconfig and
   * the .drush directory, each mounted when it exists.
   */
  function IntendedMounts(home: string, existing: set<string>): seq<string>
  {
    (if home + "/.gitconfig" in existing then [home + "/.gitconfig:/home/tok/.gitconfig"] else [])
    + (if home + "/.drush" in existing then [home + "/.drush:/home/tok/.drush"] else [])
  }

  /** As written, a home with only a .drush directory gets no optional mount. */
  lemma AsWrittenIgnoresDrushDirectory(home: string)
    ensures AsWrittenMounts(home, {home + "/.drush"}) == []
    ensures IntendedMounts(home, {home + "/.drush"}) == [home + "/.drush:/home/tok/.drush"]
  {
    assert |home + "/.gitconfig"| != |home + "/.drush"|;
    assert |home + "/.drush:/home/tok/.drush"| != |home + "/.drush"|;
  }

  /** Each of the two files is mounted at its own place exactly when it exists. */
  lemma IntendedMountsMatchFiles(home: string, existing: set<string>)
    ensures home + "/.gitconfig:/home/tok/.gitconfig" in IntendedMounts(home, existing)
      <==> home + "/.gitconfig" in existing
    ensures home + "/.drush:/home/tok/.drush" in IntendedMounts(home, existing)
      <==> home + "/.drush" in existing
    ensures |IntendedMounts(home, existing)| ==
      (if home + "/.gitconfig" in existing then 1 else 0) + (if home + "/.drush" in existing then 1 else 0)
  {
    assert |home + "/.gitconfig:/home/tok/.gitconfig"| != |home + "/.drush:/home/tok/.drush"|;
  }
}
