# SETools network contexts and sensitivity query, in Dafny

This project models two parts of SETools' policy-analysis layer and proves properties of them.

- **Network-context statements** (`Netcontext`, in `netcontext.dfy`). These are the typed views of the
  `netifcon`, `nodecon` and `portcon` statements of an SELinux policy. The model covers:
  - the factories that check the kind of the backing handle;
  - decoding of the raw address-family and protocol codes into the `NodeconIPVersion` and
    `PortconProtocol` enumerations, including the DCCP fallback code 33;
  - the `context`, `packet`, `netif`, `address`, `netmask`, `ip_version`, `protocol` and `ports`
    properties;
  - the one-line renderings and `statement()`;
  - the hash keys;
  - the two-tier `Nodecon` equality.

  The backing handle is a record of the fields its accessors return. Every member is therefore a
  total function, or returns a `Result` where the source raises.
- **Sensitivity query** (`Sensitivityquery`, in `sensitivityquery.dfy`). `SensitivityQuery` is a class
  whose fields hold the criteria: `name`, `alias`, `sens`, their flags and their normalised comparators.
  - The setters `SetName`, `SetAlias` and `SetSensitivity` are methods that change those fields. Each
    is proved equal to a specification function over a `Criteria` value.
  - `Create` is the initialiser.
  - `Results` scans the policy's sensitivities in a loop. It is proved equal to `Filter`.
  - The lemmas state what the setters and the filter promise.

`text.dfy` holds the text utilities the statements need: splitting at a separator, and decimal
printing and parsing of port numbers. `wrappers.dfy` holds `Option` and `Result`.

Behaviour of the code that the model keeps:
- A setter given an unknown option has already changed the query before it raises. `set_alias` has
  stored the new alias and any earlier `regex` option, and it leaves `alias_cmp` as it was for the
  previous alias. `set_sensitivity` has stored the resolved sensitivity and any earlier `dom`/`domby`
  options.
- The code compares a portcon's bounds only for equality, so a reversed pair also renders in the
  `low-high` form (`PortconRenderingForms`).
- `set_sensitivity`'s NameError message reads "Invalid name option", not "Invalid sensitivity option".
  The model keeps that text.

## Model

| member | source | states |
|---|---|---|
| `Netcontext.DccpCode` | setools/policyrep/netcontext.py:32-37 | The DCCP code is the protocol database's answer when the lookup succeeds, and 33 when it raises |
| `Netcontext.DecodeIPVersion` | setools/policyrep/netcontext.py:109-114 | A raw family code decodes if and only if it is AF_INET or AF_INET6. The decoded member's code is the raw code. Any other code raises ValueError |
| `Netcontext.IPVersionRoundTrip` | setools/policyrep/netcontext.py:109-114 | When the two family constants differ, every IP version decodes back from its own code |
| `Netcontext.DecodeProtocol` | setools/policyrep/netcontext.py:157-163 | A raw protocol code decodes if and only if it is the tcp, udp or dccp code. The decoded member's code is the raw code. Any other code raises ValueError |
| `Netcontext.ProtocolRoundTrip` | setools/policyrep/netcontext.py:157-163 | When the three protocol codes are distinct, every protocol decodes back from its own code |
| `Netcontext.NetifconFactory` | setools/policyrep/netcontext.py:40-46 | Returns a Netifcon if and only if the handle is a netifcon handle, and that statement wraps exactly this handle. Otherwise raises NotImplementedError |
| `Netcontext.NodeconFactory` | setools/policyrep/netcontext.py:49-55 | Returns a Nodecon if and only if the handle is a nodecon handle, and that statement wraps exactly this handle. Otherwise raises NotImplementedError |
| `Netcontext.PortconFactory` | setools/policyrep/netcontext.py:58-64 | Returns a Portcon if and only if the handle is a portcon handle, and that statement wraps exactly this handle. Otherwise raises NotImplementedError |
| `Netcontext.FactoriesPartitionHandles` | setools/policyrep/netcontext.py:40-64 | No handle is accepted by two factories, and a handle of any other kind is refused by all three |
| `Netcontext.HandleContext` | setools/policyrep/netcontext.py:74-77 | The generic `context` accessor answers exactly for nodecon and portcon handles, with the context the handle holds |
| `Netcontext.ContextOf` | setools/policyrep/netcontext.py:98-101 | A netifcon's `context` is its interface context. Nodecon and portcon take the handle's context. On the base class it answers exactly when the handle has a context accessor |
| `Netcontext.IPVersionOf` | setools/policyrep/netcontext.py:138-144 | `ip_version` is the version whose family code is the handle's raw code. It raises ValueError with that code exactly when the code is neither AF_INET nor AF_INET6 |
| `Netcontext.ProtocolOf` | setools/policyrep/netcontext.py:181-186 | `protocol` is the protocol whose number is the handle's raw code. It raises ValueError with that code exactly when the code is not the tcp, udp or dccp number |
| `Netcontext.BaseRenderingRaises` | setools/policyrep/netcontext.py:71-72 | Rendering the base NetContext always raises NotImplementedError |
| `Netcontext.Render` | setools/policyrep/netcontext.py:71-176 | The string form exists exactly for concrete statements, and for a portcon only when the protocol decodes. The base class raises NotImplementedError, and an undecodable portcon raises ValueError with its code |
| `Netcontext.StatementIsRender` | setools/policyrep/netcontext.py:79-80 | `statement()` is the string form, with the same failures |
| `Netcontext.NetifconRendering` | setools/policyrep/netcontext.py:87-106 | On every platform a netifcon renders as `netifcon <netif> <context> <packet>`, where `context` is the interface context |
| `Netcontext.NetifconTextRoundTrip` | setools/policyrep/netcontext.py:87-88 | When the interface name and interface context have no spaces, a rendered netifcon reads back as its name, interface context and packet context |
| `Netcontext.NodeconTextRoundTrip` | setools/policyrep/netcontext.py:121-122 | When address and netmask have no spaces, a rendered nodecon reads back as its address, netmask and context |
| `Netcontext.PortconRenderingForms` | setools/policyrep/netcontext.py:170-176 | Equal bounds give `portcon <proto> <port> <ctx>`. Unequal bounds in either order give `portcon <proto> <low>-<high> <ctx>` |
| `Netcontext.PortconText` | setools/policyrep/netcontext.py:170-176 | Rendering a portcon fails exactly when its protocol code does not decode, and the error is ValueError with that code |
| `Netcontext.PortconExampleSingle` | setools/policyrep/netcontext.py:173-174 | With Linux constants, tcp ports 80-80 render as `portcon tcp 80 <ctx>` |
| `Netcontext.PortconExampleRange` | setools/policyrep/netcontext.py:175-176 | With Linux constants, udp ports 1024-2048 render as `portcon udp 1024-2048 <ctx>` |
| `Netcontext.PortsTextRoundTrip` | setools/policyrep/netcontext.py:188-199 | The port text of both forms reads back as exactly the (low, high) range of the handle |
| `Netcontext.PortconTextRoundTrip` | setools/policyrep/netcontext.py:170-176 | A rendered portcon reads back as its protocol name, its port range and its context text. The rendering loses nothing |
| `Netcontext.NetifconKeyIsName` | setools/policyrep/netcontext.py:90-91 | Two netifcons have the same hash key if and only if they have the same interface name |
| `Netcontext.PortconKey` | setools/policyrep/netcontext.py:178-179 | Hashing a portcon fails exactly when its protocol code does not decode, and the error is ValueError with that code |
| `Netcontext.PortconKeyRoundTrip` | setools/policyrep/netcontext.py:178-179 | The portcon hash key reads back as protocol name, low port and high port |
| `Netcontext.PortconKeyIdentifies` | setools/policyrep/netcontext.py:178-199 | Two portcons have the same hash key if and only if protocol, low and high agree. The context plays no part |
| `Netcontext.NodeconEquals` | setools/policyrep/netcontext.py:127-136 | Comparing a nodecon raises only when the other side is a statement without address/netmask whose string form raises, and then with that exception. Against any other object without address/netmask, the answer is whether the nodecon's string form equals that object's |
| `Netcontext.NodeconEqualsStructural` | setools/policyrep/netcontext.py:127-134 | A nodecon equals another nodecon if and only if address, netmask and context are all equal |
| `Netcontext.NodeconEqualsIgnoresHandle` | setools/policyrep/netcontext.py:127-134 | Nodecons backed by different handles with the same address, netmask and context compare alike against everything, and compare equal to each other |
| `Netcontext.NodeconKeyConsistent` | setools/policyrep/netcontext.py:124-134 | Nodecons that compare equal have the same hash key |
| `Netcontext.NodeconKeyIgnoresContext` | setools/policyrep/netcontext.py:124-125 | Nodecons with the same address and netmask have the same hash key, whatever their contexts |
| `Netcontext.NodeconEqualsFallback` | setools/policyrep/netcontext.py:135-136 | Against a statement without address/netmask, equality compares string forms, and an exception raised while rendering the other side propagates |
| `Netcontext.NodeconTextAgrees` | setools/policyrep/netcontext.py:121-136 | For space-free addresses and netmasks, the string tier and the structural tier of nodecon equality give the same answer |
| `Sensitivityquery.RegexOptionsEffect` | setools/sensitivityquery.py:94-98 | The `regex` options loop stops exactly at the first other key and reports it. The flag ends at the last `regex` value before that key, or keeps its previous value |
| `Sensitivityquery.DominanceOptionsEffect` | setools/sensitivityquery.py:129-135 | The options loop stops exactly at the first key that is neither `dom` nor `domby`. Each flag ends at its last value before that key, or keeps its previous value |
| `Sensitivityquery.RegexOptionsKeepsFlag` | setools/sensitivityquery.py:94-96 | Once `regex` has a value, the options loop never leaves it unassigned |
| `Sensitivityquery.DominanceOptionsKeepFlags` | setools/sensitivityquery.py:129-135 | Once `dom` and `domby` have values, the options loop never leaves either unassigned |
| `Sensitivityquery.SettersKeepDefined` | setools/sensitivityquery.py:78-135 | Every setter, whether it succeeds or raises, leaves all flags assigned when they were before |
| `Sensitivityquery.AliasComparator` | setools/sensitivityquery.py:92-105 | The alias is always stored. On success the comparator is None if and only if the alias is empty, the compiled alias if and only if the regex flag is true, and the alias itself if and only if the flag is false |
| `Sensitivityquery.SetAliasRejectsUnknownOptions` | setools/sensitivityquery.py:92-98 | `set_alias` raises NameError exactly when some option is not `regex`. By then alias and earlier `regex` options are stored, and nothing else has changed |
| `Sensitivityquery.AliasFlagKept` | setools/sensitivityquery.py:94-96 | With no `regex` option, `alias_regex` keeps its previous value |
| `Sensitivityquery.SetAliasSucceeds` | setools/sensitivityquery.py:92-105 | `set_alias` returns without raising if and only if every option is `regex`, and the alias is empty or the final regex flag is assigned and either false or set on a pattern that compiles |
| `Sensitivityquery.SetSensitivitySucceeds` | setools/sensitivityquery.py:124-135 | `set_sensitivity` returns without raising if and only if the name is empty or known to the policy and every option is `dom` or `domby` |
| `Sensitivityquery.SetSensitivityRejectsUnknownOptions` | setools/sensitivityquery.py:124-135 | When the name resolves, `set_sensitivity` raises NameError exactly when some option is neither `dom` nor `domby`. By then `sens` and the earlier flags are stored |
| `Sensitivityquery.SensitivityResolution` | setools/sensitivityquery.py:124-133 | An empty name stores None. A known name stores the looked-up sensitivity. An unknown name raises at set time and changes nothing. Flags not named keep their values, and the other criteria are untouched |
| `Sensitivityquery.CreateDefinesCriteria` | setools/sensitivityquery.py:47-50 | The initialiser stores every criterion, defines every flag with the value given, and leaves the name and alias comparators as None, the compiled pattern or the literal string as each criterion and its flag choose. It fails exactly when a pattern does not compile or the sensitivity name is unknown |
| `Sensitivityquery.ScreenContract` | setools/sensitivityquery.py:55-76 | A sensitivity is kept if and only if it passes every configured filter. A filter is consulted only if configured and every earlier filter passed. The consulted filters run name, then alias, then dominance, and a rejection comes from the last one consulted |
| `Sensitivityquery.Filter` | setools/sensitivityquery.py:55-76 | The scan yields no more sensitivities than the policy holds |
| `Sensitivityquery.FilterIsSubsequence` | setools/sensitivityquery.py:55-76 | The results are an order-preserving subsequence of the policy's sensitivities |
| `Sensitivityquery.FilterMembership` | setools/sensitivityquery.py:55-76 | A sensitivity is yielded if and only if it is in the policy and passes every configured filter |
| `Sensitivityquery.FilterUnconfigured` | setools/sensitivityquery.py:56-74 | With no criterion set, every sensitivity is yielded, in order |
| `Sensitivityquery.FilterConcat` | setools/sensitivityquery.py:55-76 | The scan decides element by element: filtering a concatenation is concatenating the filtered parts |
| `Sensitivityquery.SensitivityQuery.Results` | setools/sensitivityquery.py:52-76 | The loop with its `continue`s yields exactly `Filter` of the current criteria over the policy's sensitivities. The matchers it consults are, sensitivity by sensitivity, the ones `ScreenContract` describes |
| `Sensitivityquery.SensitivityQuery.SetAlias` | setools/sensitivityquery.py:78-105 | The new criteria and the raised error are exactly those of `SetAliasSpec` on the old criteria. A query with all flags assigned keeps them assigned |
| `Sensitivityquery.SensitivityQuery.SetSensitivity` | setools/sensitivityquery.py:107-135 | The new criteria and the raised error are exactly those of `SetSensitivitySpec` on the old criteria. A query with all flags assigned keeps them assigned |
| `Sensitivityquery.SensitivityQuery.SetName` | setools/sensitivityquery.py:48 | The new criteria and the raised error are exactly those of `SetNameSpec`, which is shaped like `set_alias`. A query with all flags assigned keeps them assigned |
| `Sensitivityquery.SensitivityQuery.Allocate` | setools/sensitivityquery.py:47 | A new query holds its policy, and no criterion or flag exists before the initialiser's setters run |
| `Sensitivityquery.SensitivityQuery.Create` | setools/sensitivityquery.py:28-50 | Construction succeeds exactly when `CreateSpec` does. The fresh object holds its criteria with all flags defined, and otherwise the setter's exception is returned |

## Left out

- The backing policy handles and their accessors are foreign calls. Each handle is a record of the
  values its accessors return. The `policy` argument that factories and accessors pass along is
  omitted, since only the accessors use it.
- `context.context_factory` and the Context class are not part of this model. A context is known by
  its rendered text, and two contexts are equal when their texts are.
- `PolicyEnum` (util.py) is not part of this model. A protocol is assumed to print as its member name
  (`tcp`, `udp`, `dccp`).
- `PolicySymbol` equality and hashing (symbol.py) are not part of this model. Netifcon and Portcon are
  described only by their hash keys. Python hash values are modelled as the key strings that are
  hashed.
- `socket.getprotobyname` and the AF_INET, AF_INET6 and IPPROTO_* constants are host lookups. They are
  the `Platform` parameter. The fallback 33 is a constant.
- Port numbers are natural numbers, because the handle returns unsigned 16-bit values. The 16-bit bound
  itself is not modelled.
- `Netcontext.NodeconEquals`: the other side is either a statement of this module or an object known
  only by its string form. A foreign object that has `address`, `netmask` and `context` attributes is
  not modelled, and neither is Python's reflected `__eq__` protocol.
- `Netcontext.NodeconTextAgrees` requires addresses and netmasks without spaces. With a space in an
  address, two different nodecons could render alike. Its direction from equal text to equal fields
  also rests on a context being its text here: two context objects that print alike but compare
  unequal are not modelled.
- `Netcontext.NetifconTextRoundTrip` requires an interface name and interface context without spaces,
  for the same reason.
- `compquery.ComponentQuery` is not part of this model. `_match_regex`, `_match_in_set` and
  `_match_level` are uninterpreted functions of the `Matchers` record. No property of dominance, such
  as reflexivity, is assumed.
- `set_name` lives in `compquery.ComponentQuery`. `SensitivityQuery.SetName` assumes it has the shape of
  `set_alias`: store the name, apply `regex` options, derive the comparator.
- `re.compile` and regex search are not modelled. Whether a pattern compiles is the `compiles`
  predicate. A compiled pattern is represented by its source text.
- Option values and criteria are not arbitrary Python objects. Option values are booleans. The only
  falsy criterion is the empty string (None is not distinguished), and a resolved sensitivity is
  always truthy.
- `policy.lookup_sensitivity` is a map from names to sensitivities, and `policy.sensitivities()` is a
  sequence.
- `results()` is a generator in the source. Here it returns the whole sequence. Laziness and
  re-iteration are not modelled beyond `FilterConcat`, which shows that each element is decided on
  its own.
- `Sensitivityquery.SensitivityQuery.Results` requires every flag to be assigned. `Create` establishes
  that and every setter keeps it. An object from `Allocate` alone has not run the initialiser's
  setters; the source never hands out such an object.
- Keyword options are a sequence. In the source they are a dictionary, so a key cannot appear twice;
  the model allows repeats, and then the last value before the first unknown key wins.
