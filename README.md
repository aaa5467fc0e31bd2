# django-orchestra core in Dafny

This project models four pieces of django-orchestra and proves properties about them:

- **Bind9 service controllers** (`orchestra/contrib/domains/backends.py`).
  - The master and slave controllers turn a domain into a shell script.
  - The script is a buffer that grows fragment by fragment. `save` and `delete` append fragments for the zone file and for the `named.conf` stanza. `commit` appends the conditional reload last.
  - Their per-domain context is covered too: peer IP lists, `allow-transfer` and `also-notify` texts, zone paths, and the single-quote replacement.
- **DNS name logic** (`orchestra/apps/dns/models.py`).
  - Which zone serves a registered name (`get_zone`), and which record of that zone stands for it (`get_record`).
  - The registrable extension a domain ends in (`get_extension`, `split`), and the names a zone serves (`get_names`).
  - The rule that a stored name under a non-zero key is never renamed (`Name.save`). A key of 0 is false for `if self.pk:`, so that row is overwritten unchecked.
  - The bucketing of a name's zone or record before deletion (`collect_zones`).
- **Bill creation** (`orchestra/contrib/orders/billing.py`). The loop that opens bills and attaches bill lines. Also the formatting of a line's period, description and verbose quantity, and discount sublines.
- **Serializer filtering** (`orchestra/api/serializers.py`). The removal of post-only attributes on update, and the password rule.

## Files

- `text.dfy` has two modules:
  - `Common`: `Option` and `Result`.
  - `Text`: the parts of Python's string API the core uses. These are `join`, one-character `replace` and `rstrip`, `endswith`, `rindex`, ASCII `lower`, and decimal rendering. It also holds the order-keeping deduplication of an `OrderedSet`.
- `bind9.dfy` — module `Bind9`.
  - One class, `Bind9Backend`, with a `Role` (master or slave) stands for the master class and its slave subclass.
  - Each shell fragment is a `Fragment` value holding the context values it interpolates. `Render` gives its text: the command word (`Command`) followed by the filled-in template.
- `dns.dfy` — module `Dns`.
  - The database is a sequence of zones, in the order the database returns them.
  - `GetZone` is the loop of the source. It is proved equal to the recursive search `ZoneSearch`, whose meaning `ZoneSearchFromSpec` states.
- `billing.dfy` — module `Billing`.
  - `BillStore` holds the bills table. `CreateBills` is the loop of the source.
  - `CreateBills` is proved equal to `Run`, a fold of `Step` over the lines. The lemmas about `Run` state what the loop promises.
- `serializers.dfy` — module `Serializers`.

Choices made in the model:

- **Numbers.**
  - Metric and size are fixed-point numbers in hundredths.
  - Amounts are integers.
  - A date-time is a `Moment` with microseconds since midnight.
- **Python 2 behaviour.**
  - `strftime` refuses years before 1900.
  - One second before `datetime.min` overflows.
  - `sorted` is stable.
  - `str.lower` is modelled on ASCII.
- **Error paths.** Errors are `Err` values or a `false` result, never a precondition:
  - the `IndexError` of `delete_conf` on an empty name;
  - the `AttributeError` when `Meta` has no `postonly_fields`;
  - a missing zone in `get_record`;
  - `Record.objects.get` failing with none or several records;
  - the failures of `format_period`.

In `get_verbose_quantity`, the second `.00` branch takes the text before the dot of `metric` rather than of `size`. The model keeps it as written. `TrimmedNeverDotZeroZero` proves that neither `.00` branch can be reached after the `rstrip` calls, so the slip has no effect. The contract of `VerboseQuantity` states the behaviour that remains.

## Model

| member | source | states |
|---|---|---|
| Bind9.IsMain | orchestra/contrib/domains/backends.py:31-35 | A domain is main exactly when the generic check accepts it and it has no `top`; the source's implicit `None` counts as false |
| Bind9.PeersLayout | orchestra/contrib/domains/backends.py:103-106 | The slave (or master) list starts with the configured IPs, deduplicated, then routed IPs that are not configured. It holds each IP once and loses none |
| Bind9.Peers | orchestra/contrib/domains/backends.py:103-106 | The peer list holds each IP once. An IP is in it exactly when it is configured or routed. IPs keep the order of their first appearance in configured followed by routed (see also `PeersLayout`) |
| Bind9.PeerTexts | orchestra/contrib/domains/backends.py:115-116 | No peers give `none` and an empty notify text. A single empty IP gives `none` and a notify text of ";". Any other list gives the IPs joined by "; ", and the notify text is that join plus a closing ";" |
| Bind9.GetContext | orchestra/contrib/domains/backends.py:108-128 | The context holds no single quote. The master's context carries zone path, slaves, notify list and the master stanza; the slave's carries masters and the slave stanza (lines 162-178). Each value, the `conf` stanza included, is the computed text with quotes replaced |
| Bind9.ZoneTextQuoteFree | orchestra/contrib/domains/backends.py:43-45 | The zone text written between single quotes by `echo -e` contains no single quote |
| Bind9.QuotedValuesSafe | orchestra/contrib/domains/backends.py:43-88 | For any settings, domain, routed IPs, banner and rendered zone, nothing that save or delete places between single quotes contains one. That covers the zone after `echo -e`, the stanza after `conf=`, and the domain name inside each `sed '...'` expression |
| Bind9.Command | orchestra/contrib/domains/backends.py:46-92 | Every fragment starts with a command word, and the word starts with "r" only for the two `rm` fragments |
| Bind9.RenderRemoves | orchestra/contrib/domains/backends.py:72-76 | A fragment's text starts with "rm " exactly when it is the subzone-file removal or the zone-file removal |
| Bind9.RenderStartsWithCommand | orchestra/contrib/domains/backends.py:46-92 | The text of every fragment begins with its command word |
| Bind9.SubzonePath | orchestra/contrib/domains/backends.py:71 | "*." is inserted right after the last "/" of the path's first line; a first line with no "/" leaves the path unchanged |
| Bind9.MasterSaveOrder | orchestra/contrib/domains/backends.py:37-41 | The master's save emits four fragments in order: the zone file with the banner-prefixed zone, the stanza replacement, the purge of ex-top stanzas, and the removal of the subzone files |
| Bind9.SlaveRemovesNothing | orchestra/contrib/domains/backends.py:145-151 | No fragment that a slave's save or delete emits runs `rm` |
| Bind9.DeleteConfShape | orchestra/contrib/domains/backends.py:79-88 | `delete_conf` emits nothing exactly for names starting with "*" or "_". Otherwise it emits three fragments in the order sed, diff, mv |
| Bind9.MasterDeleteRemovesZoneFirst | orchestra/contrib/domains/backends.py:74-77 | The master's delete starts with `rm -f <zone_path>;`, followed by whatever `delete_conf` emits |
| Bind9.Bind9Backend.constructor | orchestra/contrib/domains/backends.py:13-21 | A controller starts with an empty script |
| Bind9.Bind9Backend.Append | orchestra/contrib/domains/backends.py:46-53 | One fragment is added at the end of the script and nothing else changes |
| Bind9.Bind9Backend.UpdateZone | orchestra/contrib/domains/backends.py:43-53 | The zone-file fragment is appended, carrying the banner comment followed by the rendered zone with quotes replaced |
| Bind9.Bind9Backend.UpdateConf | orchestra/contrib/domains/backends.py:55-72 | The stanza replacement and the purge are appended. The subzone-file removal follows only when the context has a zone path, which is only on the master |
| Bind9.Bind9Backend.DeleteConf | orchestra/contrib/domains/backends.py:79-88 | It fails (IndexError) exactly for an empty name. Otherwise it appends `DeleteConfFragments` |
| Bind9.Bind9Backend.Save | orchestra/contrib/domains/backends.py:37-41 | The master refreshes the serial before rendering the zone; the zone fragment comes before the stanza fragments. The slave's save (lines 145-147) only updates the stanza |
| Bind9.Bind9Backend.Delete | orchestra/contrib/domains/backends.py:74-77 | The master's zone-file removal is followed by `delete_conf`; the slave's delete (lines 149-151) is `delete_conf` alone. It fails exactly for an empty name |
| Bind9.Bind9Backend.Commit | orchestra/contrib/domains/backends.py:90-92 | The reload, guarded by `UPDATED`, is appended last. The slave's variant (lines 153-155) sleeps a second in the background first |
| Dns.FullNameParts | orchestra/apps/dns/models.py:75 | The full name is the name, a dot, and the extension, with the dot right after the name |
| Dns.LookupFirst | orchestra/apps/dns/models.py:89-90 | The zone filter finds nothing exactly when no zone has that origin and a record of that name. Otherwise it returns the first such zone in database order |
| Dns.LastDot | orchestra/apps/dns/models.py:76 | The position is that of the last dot of "name.extension" |
| Dns.ZoneSearchFromSpec | orchestra/apps/dns/models.py:79-92 | The search is None exactly when every split and the whole name miss. Otherwise its result is the rightmost split (shortest origin) that finds a zone, or else the zone of the whole name with record "" |
| Dns.SplitSpells | orchestra/apps/dns/models.py:86-87 | Every candidate split satisfies record + "." + origin == full name |
| Dns.GetZone | orchestra/apps/dns/models.py:72-92 | The `while not stop` loop terminates, because the search position strictly decreases, and returns what `ZoneSearch` specifies |
| Dns.Named | orchestra/apps/dns/models.py:98 | The records with a given name are exactly the zone's records of that name |
| Dns.RecordName | orchestra/apps/dns/models.py:97 | One trailing "." + origin is removed: the record name plus "." + origin gives back the full name; a name without that suffix is unchanged |
| Dns.GetRecord | orchestra/apps/dns/models.py:94-98 | No zone is an error. Otherwise `.get` has three outcomes: exactly one record with the derived name is success with that record; none is RecordDoesNotExist; more than one is MultipleRecordsReturned |
| Dns.SubzoneRecordExists | orchestra/apps/dns/models.py:94-98 | When the zone found is for a shorter origin than the whole name, `get_record` cannot fail with no zone or no record |
| Dns.Insert | orchestra/apps/dns/models.py:103 | Inserting into a list sorted by descending dot count keeps it sorted; the result is the old list's multiset plus the new element |
| Dns.SortByDots | orchestra/apps/dns/models.py:102-103 | The sorted extensions are in descending order of dot count and are a permutation of the input |
| Dns.FirstMatch | orchestra/apps/dns/models.py:103-105 | It returns an element the domain ends in ("." + ext), and None exactly when there is none |
| Dns.BestMatch | orchestra/apps/dns/models.py:100-106 | Reference definition: a matching extension with no matching extension having more dots; None exactly when nothing matches |
| Dns.BestMatchEarliest | orchestra/apps/dns/models.py:102-103 | Among the matches with the most dots, the best match is the first listed, following the stable sort |
| Dns.FirstMatchInsert | orchestra/apps/dns/models.py:103-105 | After inserting an extension into a sorted list, the first match is the new extension unless an earlier match has more dots |
| Dns.SortedFirstMatchIsBest | orchestra/apps/dns/models.py:100-106 | The first match in the sorted list is the reference best match |
| Dns.GetExtensionBest | orchestra/apps/dns/models.py:100-106 | `get_extension` returns the error value exactly when the domain ends in no extension, and otherwise the best match |
| Dns.GetExtension | orchestra/apps/dns/models.py:100-106 | Fails with "extention not found" exactly when the domain ends in none of the extensions. Otherwise it returns one of the extensions that the domain ends in (see `GetExtensionBest` for which one) |
| Dns.Split | orchestra/apps/dns/models.py:108-112 | The extension is the one `get_extension` returns, and name + "." + extension == domain. It fails exactly when no extension matches |
| Dns.Hosts | orchestra/apps/dns/models.py:28 | The records kept are exactly the CNAME and A records with a non-empty name |
| Dns.Qualify | orchestra/apps/dns/models.py:29 | Each kept record gives "name.origin", in record order |
| Dns.GetNames | orchestra/apps/dns/models.py:26-30 | The names are the origin, then "name.origin" for each CNAME or A record with a non-empty name, in record order |
| Dns.NamesStripToHosts | orchestra/apps/dns/models.py:26-30 | Every name after the origin ends in "." + origin and strips back to a host record, and every host record contributes its name |
| Dns.NameTable.constructor | orchestra/apps/dns/models.py:44-59 | The table starts empty |
| Dns.NameTable.Save | orchestra/apps/dns/models.py:64-70 | Saving a stored name under a different name or extension fails and changes nothing, as does saving under an unknown key. No row under a non-zero key is ever renamed. A key of 0 is false for `if self.pk:`, so the row under 0 is overwritten unchecked |
| Dns.RelatedCollection.constructor | orchestra/apps/dns/models.py:125-128 | The collection holds the dictionary it is given |
| Dns.RelatedCollection.CollectZones | orchestra/apps/dns/models.py:125-138 | The zone whose origin is the whole name goes under `Name`. Otherwise the name's record goes under `Record`, and that list exists even when `get_record` fails. No zone changes nothing, and other keys are untouched |
| Billing.MonthBefore | orchestra/contrib/orders/billing.py:54 | One second before `end` is in another month exactly on the first second of a month's first day |
| Billing.LabelInjective | orchestra/contrib/orders/billing.py:53-55 | Two "Mon, YYYY" labels are equal only for the same month and year |
| Billing.FormatPeriod | orchestra/contrib/orders/billing.py:52-57 | Fails exactly when `ini` is before 1900, or `end` minus one second is below `datetime.min` or before 1900. The overflow error is the one for `end` below `datetime.min` (see `FormatPeriodShape` for the text) |
| Billing.FormatPeriodShape | orchestra/contrib/orders/billing.py:52-57 | One label when `ini` and one second before `end` share month and year, otherwise "ini to end". It fails exactly for years before 1900 or below `datetime.min` |
| Billing.LineDescription | orchestra/contrib/orders/billing.py:59-66 | Fails exactly when the period is formatted (a fee, or a billing period other than NEVER) and formatting fails, with the same error. A non-fee description starts with the order's description (see `LineDescriptionCases`) |
| Billing.LineDescriptionCases | orchestra/contrib/orders/billing.py:59-66 | A fee line gets the period alone. Other lines get the description, plus " " and the period unless the billing period is NEVER, in which case it cannot fail |
| Billing.Whole | orchestra/contrib/orders/billing.py:71 | The integer part of `format(x, '.2f')` is non-empty, ends in a digit, has no dot, and carries the sign |
| Billing.TrimmedNeverDotZeroZero | orchestra/contrib/orders/billing.py:71-76 | After `rstrip('0').rstrip('.')` the text never ends in ".00", so both `.00` branches are dead |
| Billing.TrimmedIsOne | orchestra/contrib/orders/billing.py:77-80 | The trimmed text is "1" exactly for the value one |
| Billing.VerboseQuantity | orchestra/contrib/orders/billing.py:68-81 | A metric of one shows the size alone, else a size of one shows the metric alone, else "metric&times;size". Each number is shown with trailing zeros and a trailing dot stripped |
| Billing.BillStore.NewBillLine | orchestra/contrib/orders/billing.py:38-49 | The created bill line carries the service's nominal price and tax, the quantity metric × size, its verbose text, the subtotal, the description, the order and its old billing dates, and one subline per discount |
| Billing.CreateSublines | orchestra/contrib/orders/billing.py:84-90 | Exactly one subline per discount, in order, with that discount's total and type and the description "Discount per <type lowered>" |
| Billing.LastOpen | orchestra/contrib/orders/billing.py:22 | The result is an open bill of the account and kind with no later one; None when there is none |
| Billing.Open | orchestra/contrib/orders/billing.py:17-34 | Proforma mode always gives a ProForma, else a fee line gets a new Fee. With `new_open`, and for every Fee, a new bill is created with the default openness. Otherwise the account's last open bill of that kind is reused unchanged, or a new open one is created. The table grows by at most that one bill |
| Billing.Claim | orchestra/contrib/orders/billing.py:17-34 | A line that needs a bill lists the bill `Open` gives; any other line keeps the current bill. Existing bills keep kind, account and openness |
| Billing.Attach | orchestra/contrib/orders/billing.py:38-48 | Exactly one line is added, to the chosen bill, and every other bill is unchanged |
| Billing.Entry | orchestra/contrib/orders/billing.py:36-49 | A zero quantity brings no bill line. Otherwise the bill line carries the rate, quantity, verbose quantity and sublines, or the description's error |
| Billing.Step | orchestra/contrib/orders/billing.py:14-49 | One iteration keeps the loop state consistent: the current bill exists and belongs to the account. After an error nothing changes |
| Billing.Run | orchestra/contrib/orders/billing.py:9-50 | No lines give no bills listed and an unchanged table; otherwise there is a current bill of the account |
| Billing.StepAttaches | orchestra/contrib/orders/billing.py:17-48 | The first line and fee lines open and list a bill. Other lines go to the most recently opened bill, even after a fee line. Each non-zero line adds exactly its own bill line |
| Billing.ExtendsTransitive | orchestra/contrib/orders/billing.py:14-49 | Growth of the bills table composes across iterations |
| Billing.StepExtends | orchestra/contrib/orders/billing.py:14-49 | One iteration only adds lines and bills of the account |
| Billing.RunExtends | orchestra/contrib/orders/billing.py:9-50 | `create_bills` closes no bill and changes no kind or account. It only appends lines, and new bills belong to the account |
| Billing.StepProForma | orchestra/contrib/orders/billing.py:18-24 | In proforma mode an iteration keeps every listed bill a ProForma |
| Billing.RunProForma | orchestra/contrib/orders/billing.py:18-24 | In proforma mode every bill listed is a ProForma, fee lines included |
| Billing.StepListsKind | orchestra/contrib/orders/billing.py:17-34 | An iteration lists nothing new, or lists the current bill with the kind the line calls for |
| Billing.StepListedCount | orchestra/contrib/orders/billing.py:17-34 | An iteration lists one more bill exactly when its line needs one |
| Billing.RunListedCount | orchestra/contrib/orders/billing.py:9-50 | A completed run lists one bill per fee line, plus one when the first line is not a fee |
| Billing.RunStaysFailed | orchestra/contrib/orders/billing.py:44 | Once a line's description raises, the later lines change nothing |
| Billing.BillStore.constructor | orchestra/contrib/orders/billing.py:9-11 | The store holds the given bills |
| Billing.BillStore.OpenBill | orchestra/contrib/orders/billing.py:17-33 | The store and the returned index are those `Open` specifies |
| Billing.BillStore.AddLine | orchestra/contrib/orders/billing.py:15-49 | The loop body produces exactly the state `Step` specifies |
| Billing.BillStore.CreateBills | orchestra/contrib/orders/billing.py:9-50 | The listed bills, the error and the store are those of `Run` |
| Serializers.Cleaned | orchestra/api/serializers.py:43-45 | The keys are those of the data minus the post-only fields, with values unchanged |
| Serializers.PostOnlyCleaning | orchestra/api/serializers.py:39-46 | Without an instance the data comes back as is. With one, the post-only attributes are dropped. A missing `postonly_fields` fails as soon as there is an attribute to check |
| Serializers.CleanedKeepsPostOnly | orchestra/api/serializers.py:48-56 | Applying cleaned attributes never adds, removes or changes a post-only field, and sets every other given attribute |
| Serializers.CleanedIdempotent | orchestra/api/serializers.py:43-45 | Cleaning twice is cleaning once, and a key is dropped exactly when it is post-only |
| Serializers.Instance.constructor | orchestra/api/serializers.py:35 | `ModelClass(**validated_data)`: a new object holds exactly the given fields |
| Serializers.Instance.SetAttributes | orchestra/api/serializers.py:51 | Stands for the base serializer's `update` that `update` hands the cleaned attributes to. That base class is not part of this model. Every given attribute is set on the object, overriding the old value, and the other fields are kept, as in the setattr loop of lines 31-33 |
| Serializers.Instance.Update | orchestra/api/serializers.py:48-51 | Only the cleaned attributes reach the object. A failed cleaning leaves the object unchanged |
| Serializers.Instance.PartialUpdate | orchestra/api/serializers.py:53-56 | Same as update: only the cleaned attributes reach the object |
| Serializers.ValidatePassword | orchestra/api/serializers.py:64-71 | Attributes are accepted exactly when a password is given on create and not given on update. Accepted attributes are returned unchanged, and each rejection carries its message |

## Left out

- `get_servers` (orchestra/contrib/domains/backends.py:94-101): the router and `Operation` are not part of this model. The IPs it routes are the `routed` parameter.
- `get_banner`, `Domain.render_zone` and `Domain.refresh_serial` are not part of this model. The banner, the rendering function and the new serial are parameters of `Save`.
- `replace(context, "'", '"')` is not part of this model. It is taken to replace the character in every string value of the context.
- The `subdomains` entry of the context is not modelled, because no template uses it.
- The meaning of the generated shell (sed, diff, named-checkzone, service reload) is not modelled.
- `textwrap.dedent` is not modelled. Fragment texts are written already dedented.
- The script buffer holds `Fragment` values, not strings. `Render` gives the string each one contributes.
- `DOMAINS_ZONE_PATH` is modelled as a text before and after `%(name)s`. Other format directives in that setting are not modelled.
- Regular-expression corner cases of `get_extension`, `split` and `get_record` are not modelled:
  - `$` also matching before a trailing newline;
  - extensions that contain regular-expression characters other than ".".
  A match is "ends in '.' + ext", and the substitution removes that suffix.
- ORM behaviour is not modelled beyond these choices:
  - The database is a sequence. `zone[0]` and `.last()` follow that order.
  - `.distinct()` is immaterial to the first zone found.
  - The `unique_together` constraint of `Name` is not enforced.
  - A row's new primary key is the `newKey` parameter, which must be unused.
- Dates are not modelled in full:
  - Locale and translation (`ugettext`) are not modelled; month names are English abbreviations and " to " is untranslated.
  - Days are not checked against the month's length.
  - `ini` and `end` are date-times.
- Floating point in `format(x, '.2f')` is not modelled, including rounding and negative zero. Metric and size are exact hundredths.
- The base serializer's `update` and `partial_update` are not part of this model. They are taken to set each forwarded attribute on the object, so `Instance.PartialUpdate` has the same contract as `Instance.Update`.
- `SetPasswordHyperlinkedSerializer.validate` and `create` (orchestra/api/serializers.py:73-91) are not modelled. They use an undefined `models` name, a possibly unbound `password` and the wrong `super`, and they wrap framework internals.
- The orchestration engine is not modelled: operation grouping, routing, execution and backend logs. Admin pages and settings modules are not modelled either.
