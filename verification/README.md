# Tokaido configuration lookup and docker-compose fragments, in Dafny

Tokaido is a command-line tool that runs a Drupal site in a set of Docker
containers. This project models two parts of it and proves properties of
each.

**Configuration lookup (`tok config-get`).**
- `Config` models `conf/get_config.go`.
- The words typed on the command line are normalised into field names: the
  first character is upper-cased and the rest lower-cased.
- The resulting field path is walked through the nested configuration.
- The Go code walks the `Config` struct by reflection. Here the configuration
  is an explicit tree of values (`Struct`, `Map`, `Str`, `Bool`, `Int`, and
  `Slice` for every other kind).
- The global configuration and its project list are passed in as values.
- A panic and a fatal log are explicit outcomes, not preconditions.
- The three loops of the source are methods: `normalizeFieldSlice`, the
  walk in `getField`, and the search in `GetProjectPath`. The first two are
  proved against recursive specification functions. The search is proved
  to return the first matching project.
- The walk is related to an independent reference lookup, `At`, which
  follows a path through structs only.

**docker-compose fragments.**
- `ComposeTemplates` models `services/docker/templates/compose.go`.
- These are the builders of the fragments Tokaido merges into
  `docker-compose.tok.yml`: image tags, Drupal environment variables,
  optional services, volume declarations, the database image and the site
  volumes.
- Each builder is a function that returns the fragment's text.
- The reads of the global configuration become parameters: `fusion` for the
  sync service being "fusion", and `project` for the project name.
- In the volume attachment, two things from the host become inputs:
  - the home directory, `None` when it cannot be resolved;
  - the set of paths that exist on the host.
- The properties say which services a fragment configures, and in what
  order. They also say which mounts a service gets, and that the key-value
  fragments read back to what was put in.

The repository also contains `system/tls/main.go`, the entry point of a TLS
certificate authority. `ConfigureTLS` calls `removeLegacyCertificate`,
`createCA` and `createWildcardCertificate`, whose code is not among the
modelled files. `SignCertificate` is a stub that returns nil. The model
follows the code, so no certificate authority is modelled (see
"Left out").

## Model

| member | source | states |
|---|---|---|
| Config.FieldByName | conf/get_config.go:79 | Finds a struct's field by name. The result is the first field with that name. It is the invalid value (None) exactly when no field has that name. |
| Config.Capitalize | conf/get_config.go:68-69 | A word keeps its length. Its first character is upper-cased and every other character lower-cased. |
| Config.NormalizedFields | conf/get_config.go:65-73 | Gives one field name per command-line word, in order. Each name is that word capitalised. |
| Config.NormalizeFieldSlice | conf/get_config.go:65-73 | The loop that appends one field per word builds exactly the capitalised words, in order. |
| Config.CapitalizeIdempotent | conf/get_config.go:68-69 | Capitalising an already capitalised word changes nothing. |
| Config.NormalizedFieldsIdempotent | conf/get_config.go:65-73 | A normalised path is its own normalisation. |
| Config.CapitalizeSameUpToCase | conf/get_config.go:68-69 | Capitalising only changes case: the lower-cased word is unchanged. |
| Config.MessagesIgnoreNormalization | conf/get_config.go:54-60 | getField quotes the normalised fields in its messages and GetConfigValueByArgs quotes the raw words. Both messages give the same text, because each is lower-cased. |
| Config.Walk | conf/get_config.go:84-106 | The walk of getField over the fields still to visit. With none left, it returns the current field. It fails only with the "not a valid path" or "is a value" message, each quoting the whole path. Its only panic is the one from `FieldByName` on a kind that is not a struct. |
| Config.Resolve | conf/get_config.go:75-107 | getField on the configuration. A one-field path is looked up at the top level and never fails (lines 79-82). Every error is one of the two messages quoting the whole path. |
| Config.GetField | conf/get_config.go:75-107 | The loop of getField gives exactly the outcome of the recursive walk, Resolve. |
| Config.WalkThroughStructs | conf/get_config.go:101-102 | Walking through structs is the same as descending to the deeper field and walking on from there. |
| Config.ResolveStopsAt | conf/get_config.go:84-106 | Relates getField to the reference lookup At, according to where the walk stops. If every proper prefix is a struct, the result is the value at the full path. If the first prefix that is not a struct is missing, the result is the "not a valid path" error. If it is a string, bool or int, the result is the "is a value" error. If it is a map, the result is the map itself. If it is any other kind, the walk panics. |
| Config.ResolveFoundOnPath | conf/get_config.go:75-107 | A value getField returns lies on the path. It is the value at the full path, or a map at a prefix of it. |
| Config.GetConfigValueByArgs | conf/get_config.go:47-63 | No words gives the usage error. An empty word panics. A missing field at the end of the path gives the "not a valid path" error for the typed words. Errors and panics from getField are passed through. A success is the value at the normalised path, or a map found at a prefix of it. |
| Config.GetProjectPath | conf/get_config.go:36-44 | The result is the path of the first project named like the current project. It panics exactly when no project has that name. |
| ComposeTemplates.PhpVersionString | services/docker/templates/compose.go:11-23 | Only "7.1" and "7.2" are supported. Any other version is fatal. The result is the version without its dot. |
| ComposeTemplates.StabilityLevelRendersServices | services/docker/templates/compose.go:58-92 | Specifies StabilityLevel. The fragment fails exactly for an unsupported PHP version. Otherwise it sets the image of syslog, haproxy, varnish, nginx, fpm and drush in that order, each tagged with the stability. Under fusion, sync comes first. fpm and drush use the version-specific images. |
| ComposeTemplates.StabilityLevelFusionAddsSync | services/docker/templates/compose.go:61-91 | StabilityLevel: the fusion fragment is the plain fragment with the sync image entry inserted after `services:`. |
| ComposeTemplates.DrupalSettingsRendersEnvironments | services/docker/templates/compose.go:26-55 | Specifies DrupalSettings. The fragment gives fpm, nginx and drush (and kishu under fusion) the Drupal root first, in that order. drush also gets the project name. |
| ComposeTemplates.DrupalSettingsFusionAddsKishu | services/docker/templates/compose.go:26-55 | DrupalSettings: the fusion settings are the plain settings followed by exactly the kishu environment, and the plain settings are a strict prefix of them. |
| ComposeTemplates.EnableSolrLabelled | services/docker/templates/compose.go:95-108 | Specifies EnableSolr. The fragment starts with the solr service and its `tokaido/solr` image tagged with the version. It ends with the managed-by-Tokaido labels for the project. |
| ComposeTemplates.EnableRedisLabelled | services/docker/templates/compose.go:111-120 | Specifies EnableRedis. The fragment starts with the redis service and its `redis` image tagged with the version. It ends with the project's labels. |
| ComposeTemplates.EnableMailhogLabelled | services/docker/templates/compose.go:123-133 | Specifies EnableMailhog. The fragment starts with the mailhog service and its `mailhog/mailhog` image tagged with the version. It ends with the project's labels. |
| ComposeTemplates.EnableAdminerLabelled | services/docker/templates/compose.go:136-145 | Specifies EnableAdminer. The fragment starts with the adminer service and its `adminer` image tagged with the version. It ends with the project's labels. |
| ComposeTemplates.EnableMemcacheLabelled | services/docker/templates/compose.go:148-155 | Specifies EnableMemcache. The fragment starts with the memcache service and the project's labels. It ends with the `memcached` image line tagged with the version. |
| ComposeTemplates.ExternalVolumeDeclareRoundTrip | services/docker/templates/compose.go:158-163 | Specifies ExternalVolumeDeclare. The declaration reads back to the volume's name, marked external. |
| ComposeTemplates.InternalVolumeDeclareRoundTrip | services/docker/templates/compose.go:166-171 | Specifies InternalVolumeDeclare. The declaration reads back to the volume's name, marked internal. It differs from the external declaration of the same name. |
| ComposeTemplates.MysqlVolumeAttachRoundTrip | services/docker/templates/compose.go:174-180 | Specifies MysqlVolumeAttach. The volume mounted as the MySQL data directory reads back as the name given. |
| ComposeTemplates.SetDatabaseRoundTrip | services/docker/templates/compose.go:183-188 | Specifies SetDatabase. Any image name, registry-qualified ones with a colon included, and a version without a colon read back unchanged from the mysql image reference, split at its last colon. |
| ComposeTemplates.FusionSiteVolumesMountSite | services/docker/templates/compose.go:191-211 | Specifies TokaidoFusionSiteVolumeAttach. The fragment is the rendered list of services and their mounts. Under fusion, sync mounts the host path. sync, drush, nginx, fpm and kishu each mount the site volume at /tokaido/site. |
| ComposeTemplates.TokaidoDockerSiteVolumeAttach | services/docker/templates/compose.go:214-247 | Fails exactly when the home directory cannot be resolved. Otherwise the result is the site volumes extended by one mount line per probed file found, in probe order. |
| ComposeTemplates.DockerSiteVolumesExtendDrush | services/docker/templates/compose.go:220-244 | nginx and fpm mount the site. drush mounts the site, the composer cache and then the optional mounts, which all land in drush's volume list. |
| ComposeTemplates.DockerSiteVolumesOneLinePerMount | services/docker/templates/compose.go:236-244 | Each optional mount adds exactly one line. |
| ComposeTemplates.AsWrittenMountsOnePerProbe | services/docker/templates/compose.go:232-244 | There is one optional mount per probed path found, and the .gitconfig mount comes first. |
| ComposeTemplates.AsWrittenNeverMountsDrush | services/docker/templates/compose.go:232-244 | As written, every optional mount takes its source from .gitconfig. |
| ComposeTemplates.AsWrittenIgnoresDrushDirectory | services/docker/templates/compose.go:232-244 | A home with only a .drush directory gets no optional mount as written, but gets the .drush mount as intended. |
| ComposeTemplates.IntendedMountsMatchFiles | services/docker/templates/compose.go:232-244 | As intended, .gitconfig and .drush are each mounted at their own place exactly when they exist. |

## Left out

- GetConfig (conf/get_config.go:15-33) reads the project and global configuration files through viper and YAML. That is I/O, and its fatal errors belong to it. The configuration it returns is a parameter of the model.
- Go reflection is not modelled. The `Value` tree stands for the reflected `Config` struct. `Slice` stands for every kind that getField neither stops at (a map) nor descends into (a struct) while fields remain. Descending into such a kind panics in `FieldByName`, as it does for a slice.
- Config.Walk: the panic from `FieldByName` always carries the message Go gives for a slice. For a pointer, an interface or any other kind, Go names that kind in the message instead.
- The contents of a `Map` value are simplified to a string-to-string map. getField returns a map without looking inside it.
- Config.Capitalize: case mapping is ASCII only. Go's `strings.ToUpper` and `strings.ToLower` map all of Unicode. The source takes the first rune but keeps the remaining bytes from byte 1, so a multi-byte first character is partly repeated; that case is not modelled.
- Config.GetConfigValueByArgs: the panic for an empty word is an outcome carrying a fixed runtime message. The exact text of Go's index-out-of-range panic is not modelled.
- ComposeTemplates.PhpVersionString: `log.Fatalf` ends the process. It is modelled as None, without the message it prints.
- ComposeTemplates.TokaidoDockerSiteVolumeAttach: `homedir.Dir` and `fs.CheckExists` become inputs: the home directory as an option, and the set of existing paths. Their own behaviour is not modelled.
- The builders return strings, not `[]byte`.
- Each fragment is built from small pieces (service headers, variable lines, mount lines) that concatenate to the source's text character for character. Renderers such as `RenderImages` and `MountLines` build the same text from a list of services or mounts.
- The package-level templates ModWarning, ComposeTokDefaultsFusionSync and ComposeTokDefaultsDockerVolume (services/docker/templates/compose.go:249-481) are constant texts with no logic. They are not part of this model.
- system/tls/main.go is not part of this model. ConfigureTLS calls removeLegacyCertificate, createCA and createWildcardCertificate, whose code is not part of this model. SignCertificate is a stub that returns nil.
- services/proxy/struct.go is not part of this model. It holds static proxy configuration types and templates.

## Findings

| source | as written | input that shows it | evidently intended | confidence | as-written member | corrected member |
|---|---|---|---|---|---|---|
| services/docker/templates/compose.go:232-244 | The .drush probe checks for the path `<home>/.drush:/home/tok/.drush`, which includes the mount target. When that path exists, it mounts `<home>/.gitconfig` at `/home/tok/.drush`. | A home directory where only `<home>/.drush` exists. No optional mount is added, and the .drush directory is never mounted. | Probe `<home>/.drush` and mount `<home>/.drush:/home/tok/.drush`, as the comment above the probes says. | not executed | ComposeTemplates.AsWrittenIgnoresDrushDirectory | ComposeTemplates.IntendedMountsMatchFiles |
