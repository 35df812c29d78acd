# Ratchet in Dafny

Ratchet is a coroutine scheduler with a bundled recursive DNS resolver and some small wire
protocols. This project models its hard parts in Dafny and proves what they promise:

- **DNS packets** (`Wire`, `Names`, `Compression`, `NameNet`, `NameRuns`, `Savings`,
  `FailedPushes`, `Records`, `RecordRuns`, `Rdata`, `Packets`). The packet is a byte array with `end`, `dict` and memos, built in place by
  `Packets.Packet`. Names are compressed against a dictionary (section 4.1.4 of RFC 1035). The proofs
  carry a ghost map from offsets to the names that can be read there.
- **The resolver** (`Resolver`, `ResolverSafety`, `ResolverTermination`, `ResolverRuns`, `ResolverAnswers`,
  `ResolverServers`, `Descent`).
  The stack machine of `dns_res_exec` is a function of one transition. What it does not control comes
  from an oracle: the network, the hosts file, hint servers, the cache, allocation and the contents of
  packets. Packets are numbered and owned by slots; a missing pointer, a use after free, a double free, a
  failed assert or a step off the stack is a crash of the model. The lemmas named `...Ok` say of one state that
  its transition does not crash and keeps the invariant; the table names what that rests on. The lemmas named
  `...Drops` say that a measure over the frame stack falls; the table names what falls.
- **Query ids, shuffling, iteration** (`Permutor`, `Shuffle`, `Lists`, `Selection`, `Iteration`, `Hints`).
- **TCP replies** (`TcpReassembly`), **the MX index** (`MxIndex`).
- **The scheduler** (`Scheduler`, `Deadlock`, `Wakeups`, `Ratchet`). The first three have the operations on
  states and what holds in every run; `Ratchet.Tables` has the tables updated in place, each operation against
  its specification, and the loops of `loop_once`, whose executions are such runs. What the coroutines do when
  resumed, and which events fire, are inputs. Weak tables are plain maps.
- **Stream protocols** (`DataReader`, `SocketPad`, `BusFraming`) and **the SMTP session** (`SmtpSession`).

Some properties one would expect do not hold as they stand. Each has a family of failures and a
condition under which the code does what is expected:

1. A compressed name may read back as another one, because the search does not reload its label after a
   partial match: with one label replaced by one behind it, and in no other way (`NameRuns.MisreadIff`). It
   cannot happen if no name exposes a later one (`NameRuns.NamesReadBack`).
2. A failed push restores `end` but not `dict`. The packet stays fit for pushes if and only if none of the
   entries left lies behind the end, which only names in rdata cause (`Packets.Packet.PPush`); otherwise a later
   name may be one whose expansion never ends (`FailedPushes.StrayLoops`).
3. A thread that is killed, or whose alarm fires, while parked in `wait_all` is resumed later
   (`Scheduler.LiveIff`, `Scheduler.Revival`).
4. A send buffer one octet over its chunk size sends the following data twice, and a chunk size below one octet
   sends for ever (`SocketPad.ConservedIff`, `SocketPad.SentTwice`, `SocketPad.LoopEndsIff`).
5. With recursion on, the resolver follows referrals without end (`ResolverRuns.EndsIff`).
6. Hint priorities 2^31 or more apart are not enumerated in order, with one exception (`Hints.InOrderIff`).

Where the code and its own documentation or names disagree the model follows the code.

## Model

| member | source | states |
|---|---|---|
| Compression.SearchSound | src/c/dns/libdns/dns.c:1491-1524 | Whatever the suffix search of dns_d_comp hits is the end of a name in the dictionary, reads as the label the search held followed by the remaining labels, up to case, and can be reached by a 14-bit pointer. |
| Compression.SearchCarried | src/c/dns/libdns/dns.c:1497-1519 | The label a hit is scored with is the one that starts the suffix, or one that stands behind it in the name pushed: what a partial match left in the cursor. |
| Compression.SearchRight | src/c/dns/libdns/dns.c:1491-1524 | If no dictionary name exposes the name pushed (ends in one of its suffixes behind another label that stands in that suffix), a hit is scored with the right label. |
| Compression.UnrepeatedExposesNone | src/c/dns/libdns/dns.c:1491-1524 | A name without repeated labels exposes no name. |
| NameRuns.DictScanStep | src/c/dns/libdns/dns.c:1038-1067 | dns_p_dictadd puts a name that ends in a pointer to an entry in the place of the first such entry, and any other behind the entries while there is room. |
| NameNet.ExpandNode | src/c/dns/libdns/dns.c:1571-1647 | From every name of a push-built packet dns_d_expand ends after a known number of rounds: with the name's labels, or with an error if more than 127 pointers stand in a row. |
| NameRuns.PushKeeps | src/c/dns/libdns/dns.c:1650-1667 | A push leaves every earlier name as it reads, and adds one that comes to the root exactly when its pointer does, and then reads as its labels except perhaps the one the hit was scored with. Entries that stood at the end of the packet, as failed pushes leave them, now are the new name. |
| NameRuns.PushReads | src/c/dns/libdns/dns.c:1446-1647 | A pushed name expands to a text if and only if the root is in reach of its pointer and that text is the one written, up to case. |
| NameRuns.PushFair | src/c/dns/libdns/dns.c:1650-1667 | A push of any valid name keeps every name readable; the bound on pointers in a row rises only when the dictionary grows or a failed push had left an entry at the end. |
| NameRuns.PushNamed | src/c/dns/libdns/dns.c:1446-1667 | A name that no earlier one exposes reads as it was pushed, also into a packet that saw failed pushes. |
| NameRuns.RunFair | src/c/dns/libdns/dns.c:1038-1067 | In every run of pushes of any names, with any other octets in between, at most 33 pointers stand in a row. |
| NameRuns.EarlierNamesStay | src/c/dns/libdns/dns.c:1571-1667 | Whatever was pushed before and is pushed later, expansion at a name gives the same outcome, text or error. |
| NameRuns.NamesReadBack | src/c/dns/libdns/dns.c:1446-1667 | Round trip over whole runs: if no name exposes a later one, at the end every name that fitted expands from its offset to its anchored text, up to case. No bound on the number of names; labels may repeat. |
| NameRuns.LastMayRepeat | src/c/dns/libdns/dns.c:1446-1667 | In particular if no name but the last repeats a label. |
| NameRuns.TrapSprings | src/c/dns/libdns/dns.c:1497-1519 | Between a name that stops short of the suffix and one that ends in it behind another label, the search reports the latter, for all such labels. |
| NameRuns.Misreads | src/c/dns/libdns/dns.c:1446-1667 | So for every name and every label in it that stands behind a different one, two pushes into an empty packet make a third push read back with the former in place of the latter. |
| NameRuns.RepeatedLabelBreaks | src/c/dns/libdns/dns.c:1497-1519 | After pushing `a.x.` and `b.b.c.` into an empty packet, `a.b.c.` reads back as `b.b.c.`, for all such labels. |
| NameRuns.MisreadOnly | src/c/dns/libdns/dns.c:1446-1667 | After any run, a name that does not read back has one label replaced by one that stands behind it, and nothing else. |
| NameRuns.MisreadIff | src/c/dns/libdns/dns.c:1446-1667 | The exact extent of the failure over all runs: a name of legal length can come back as another text if and only if that text has one of its labels replaced by a different label standing behind it. |
| Savings.Saves | src/c/dns/libdns/dns.c:1446-1667 | What compression is for, in octets: after any names while the dictionary has room, one name with some tail, and any further names, pushing another name with that tail appends no more than its other labels and a two-octet pointer. The first label of the tail is one the other names lack, the tail stands within reach of a pointer, and no name exposes a later one. |
| NameRuns.CompShort | src/c/dns/libdns/dns.c:1446-1528 | Compression never makes a name longer. |
| Names.TextOfLabels | src/c/dns/libdns/dns.c:1458-1488 | The labels a text is cut into make it up again, anchored. |
| Compression.EncodeSize | src/c/dns/libdns/dns.c:1458-1488 | A name takes one octet more than its anchored text when nothing is compressed. |
| Records.RrSkip | src/c/dns/libdns/dns.c:1784-1816 | Skipping a record always moves forward and never past the end, on any octets. |
| Records.DSkip | src/c/dns/libdns/dns.c:1531-1566 | So does skipping a name. |
| Records.StudyIsBounds | src/c/dns/libdns/dns.c:1227-1261 | dns_p_study stores, for any octets, the record boundaries at which the header's counts add up. |
| Records.MemoAgreesWithRecount | src/c/dns/libdns/dns.c:1819-1847 | At every record boundary of any packet, well formed or not, the memo ranges left by dns_p_study and the index-counting path name the same section, the one the header's counts put that record in. |
| RecordRuns.QEndOf | src/c/dns/libdns/dns.c:905-922 | In a packet built by pushes dns_p_qend is where the questions end. |
| RecordRuns.ReadRecord | src/c/dns/libdns/dns.c:1725-1816 | At the start of each pushed record dns_rr_parse yields its type, class, 31-bit ttl and rdata extent, and dns_rr_skip leads to the next record. |
| RecordRuns.WalksBack | src/c/dns/libdns/dns.c:1725-1816 | Skipping and parsing walk a built packet back to exactly its records, in order, with their sections. |
| RecordRuns.StudyOfBuilt | src/c/dns/libdns/dns.c:1227-1261 | On a built packet dns_p_study finds the first and last octet of each section. |
| RecordRuns.BuiltAppend | src/c/dns/libdns/dns.c:1070-1178 | A record appended in section order, with its count added, leaves a packet built of one record more. |
| RecordRuns.PushMemosStudied | src/c/dns/libdns/dns.c:1101-1158 | The memo updates of dns_p_push agree with what dns_p_study would compute from scratch. |
| Rdata.TxtWireLength | src/c/dns/libdns/dns.c:3029-3069 | The rdlength dns_txt_push announces, len + ceil(len / 255), is the number of octets it writes. |
| Rdata.TxtRoundTrip | src/c/dns/libdns/dns.c:2999-3069 | dns_txt_parse returns every payload that fits unchanged across all 255-octet segments. |
| FailedPushes.OwnerOnly | src/c/dns/libdns/dns.c:1070-1098 | A failed push that wrote its owner name only leaves no entry behind the end of the packet. |
| FailedPushes.SamePush | src/c/dns/libdns/dns.c:1446-1528 | What a push writes and does to the dictionary depends on the names of the packet only, not on other octets. |
| FailedPushes.TriesSame | src/c/dns/libdns/dns.c:1650-1667 | So the dictionary a record's names leave does not depend on the fixed fields between them. |
| FailedPushes.TriesEntries | src/c/dns/libdns/dns.c:1038-1067 | Entries a failed push adds lie at or behind the end it restores. |
| FailedPushes.Strayed | src/c/dns/libdns/dns.c:1164-1178 | A push that fails after a name in its rdata leaves that entry in the dictionary. |
| FailedPushes.StrayLoops | src/c/dns/libdns/dns.c:1491-1647 | From such a packet two ordinary records lead to a name whose expansion never ends, for all labels and every number of rounds. |
| Packets.Packet.EncodeText | src/c/dns/libdns/dns.c:1458-1488 | The encoding loop writes the labels of a dotted name, each behind its length, and a root octet. |
| Packets.Packet.MatchLabels | src/c/dns/libdns/dns.c:1505-1508 | The innermost comparison loop: where it stops, and the label it leaves behind in the outer loop's variable. |
| Packets.Packet.ScanName | src/c/dns/libdns/dns.c:1501-1519 | The loop over the suffixes of one dictionary name; that it finds tails inside names is Savings.Saves. |
| Packets.Packet.FindSuffix | src/c/dns/libdns/dns.c:1495-1523 | The whole search in place agrees with the search over the dictionary's names as lists of labels. |
| Packets.Packet.DComp | src/c/dns/libdns/dns.c:1446-1528 | dns_d_comp writes the labels before the suffix found and a pointer to it, or all labels; beyond the limit only the length counts. |
| Packets.Packet.DictAdd | src/c/dns/libdns/dns.c:1038-1067 | dns_p_dictadd in place, against its specification; a changed dictionary has an entry from the new name on. |
| Packets.Packet.DPush | src/c/dns/libdns/dns.c:1650-1667 | dns_d_push appends exactly the compressed form, or changes nothing; it succeeds whenever the name fits uncompressed; earlier names stay; a name that none of them exposes reads back. |
| Packets.Packet.DExpand | src/c/dns/libdns/dns.c:1571-1647 | The expansion loop computes the specified expansion wherever that ends. |
| Packets.Packet.OctetsPush | src/c/dns/libdns/dns.c:2276-2359 | A and AAAA data behind their length, if and only if there is room for both. |
| Packets.Packet.HostPush | src/c/dns/libdns/dns.c:2500-2523 | NS, CNAME and PTR data: a compressed name behind a length filled in afterwards; it succeeds whenever the uncompressed name fits; on failure the end is restored. |
| Packets.Packet.ExchangePush | src/c/dns/libdns/dns.c:2430-2456 | MX data: preference and compressed name, likewise. |
| Packets.Packet.AuthorityPush | src/c/dns/libdns/dns.c:2611-2657 | SOA data: two compressed names and five 32-bit counters; it succeeds whenever the uncompressed form fits with one octet to spare. |
| Packets.Packet.Counters | src/c/dns/libdns/dns.c:2633-2641 | The counters are written if and only if an octet remains free behind them. |
| Packets.Packet.TxtPush | src/c/dns/libdns/dns.c:3029-3069 | TXT data in segments, with the rdlength announced, if and only if len + ceil(len / 255) octets fit behind it. |
| Packets.Packet.PlainPush | src/c/dns/libdns/dns.c:3162-3180 | Data without names stands behind its length whatever is in the packet, and changes no name. |
| Packets.Packet.AnyPush | src/c/dns/libdns/dns.c:3162-3180 | The rdata of every modelled type stands behind a length that says so; names in it read back if none is exposed; only a SOA that fails can leave entries. |
| Packets.Packet.PushTail | src/c/dns/libdns/dns.c:1085-1098 | What follows the class of an answer: ttl, rdlength and rdata, with the dictionary as its names leave it. |
| Packets.Packet.PushOctets | src/c/dns/libdns/dns.c:1070-1098 | The octets of one record: name, type, class and, but for questions, ttl, length and rdata. |
| Packets.Packet.SStudy | src/c/dns/libdns/dns.c:1227-1239 | dns_s_study against its specification. |
| Packets.Packet.PStudy | src/c/dns/libdns/dns.c:1241-1261 | dns_p_study against its specification. |
| Packets.Packet.Commit | src/c/dns/libdns/dns.c:1100-1163 | Counting a complete record into the header keeps the memos equal to a fresh study and the packet a list of its records. |
| Packets.Packet.PPush | src/c/dns/libdns/dns.c:1070-1178 | A successful push appends one record with the section, type, class, ttl and rdata asked for; a failed one leaves records, octets and memos as they were, and the packet fit for further pushes if and only if no entry of its names, as the request and the packet before it determine them, lies behind the end; a record that fits uncompressed is refused only for its order or for the lack of a section. |
| Packets.Packet.PushNext | src/c/dns/libdns/dns.c:1070-1178 | One push of a run, failed or not, keeps what the run has established. |
| Packets.Packet.PushRun | src/c/dns/libdns/dns.c:1070-1261 | A run of pushes, failed ones among them: skipping and parsing yield exactly the records of the pushes that succeeded, in order, each with its rdata; the memos equal a fresh study; every name, of owners and in rdata, reads back if no earlier one exposes it; and records asked for in section order that fit uncompressed are all kept. |
| ResolverSafety.GlueOk | src/c/dns/libdns/dns.c:5734-5758 | GLUE: below the bottom frame there is a query to look up; a frame that goes on with a found answer owns it. |
| ResolverSafety.SwitchOk | src/c/dns/libdns/dns.c:5759-5776 | SWITCH: the lookup list is never read past its end, and a frame in CACHE has a cache to ask. |
| ResolverSafety.FileOk | src/c/dns/libdns/dns.c:5777-5825 | FILE: the old answer is freed once; an empty one is dropped and its slot cleared. |
| ResolverSafety.FileLoopOk | src/c/dns/libdns/dns.c:5777-5825 | The search loop of FILE at the bottom: the same for each name tried. |
| ResolverSafety.CacheOk | src/c/dns/libdns/dns.c:5826-5844 | CACHE: the bottom frame makes its query if it has none; the answer that is replaced is freed once. |
| ResolverSafety.SubmitOk | src/c/dns/libdns/dns.c:5845-5854 | SUBMIT and CHECK: the query handed to the cache is there, however often the cache has to be asked again. |
| ResolverSafety.FetchOk | src/c/dns/libdns/dns.c:5855-5870 | FETCH: the old answer is freed once, and FINISH is entered only with a new one. |
| ResolverSafety.BindOk | src/c/dns/libdns/dns.c:5871-5880 | BIND: the assertion that a frame above the bottom has a query holds. |
| ResolverSafety.SearchOk | src/c/dns/libdns/dns.c:5881-5895 | SEARCH: the new query takes the place of the old, which is freed once, also when the push into it fails. |
| ResolverSafety.HintsOk | src/c/dns/libdns/dns.c:5896-5900 | HINTS: the query is there; the serving states are entered only with hints. |
| ResolverSafety.IterateOk | src/c/dns/libdns/dns.c:5901-5909 | ITERATE: the hints it starts to read are there. |
| ResolverSafety.ForeachNsOk | src/c/dns/libdns/dns.c:5910-5924 | FOREACH_NS: the hints are there, on the last attempt too. |
| ResolverSafety.Resolv0NsOk | src/c/dns/libdns/dns.c:5925-5943 | RESOLV0_NS: the frame above is inside the stack, is cleared with its packets freed once, and starts with a query. |
| ResolverSafety.Resolv1NsOk | src/c/dns/libdns/dns.c:5944-5959 | RESOLV1_NS: the frame above has left its query and its answer; glue goes into hints that are still there. |
| ResolverSafety.ForeachAOk | src/c/dns/libdns/dns.c:5960-5999 | FOREACH_A: hints and query are there, and the socket may be given a new query in any state it can be in. |
| ResolverSafety.Cname0AOk | src/c/dns/libdns/dns.c:6051-6068 | CNAME0_A: query and answer are there, the frame above is inside the stack and starts clean. |
| ResolverSafety.Cname1AOk | src/c/dns/libdns/dns.c:6069-6075 | CNAME1_A: both answers to merge are there; the old one is freed once. |
| ResolverSafety.FinishOk | src/c/dns/libdns/dns.c:6076-6087 | FINISH: its assertion holds, every state that leads here leaves an answer. |
| ResolverSafety.Smart0AOk | src/c/dns/libdns/dns.c:6088-6161 | SMART0_A: the answer it reads is there while one lookup after another uses the frame above. |
| ResolverSafety.Smart1AOk | src/c/dns/libdns/dns.c:6162-6185 | SMART1_A: its assertion holds, the finished frame above left an answer; growing the own one moves it without losing it. |
| ResolverSafety.DoneOk | src/c/dns/libdns/dns.c:6186-6192 | DONE: its assertion holds, and the frame returned to is one that was suspended. |
| ResolverSafety.ServfailOk | src/c/dns/libdns/dns.c:6193-6207 | SERVFAIL: the old answer is freed once; DONE is entered only with the new one. |
| ResolverSafety.ResetAboveOk | src/c/dns/libdns/dns.c:5492-5498 | Clearing the frame above frees its three packets once and leaves it zeroed. |
| ResolverSafety.QueryAOk | src/c/dns/libdns/dns.c:6000-6050 | QUERY_A: whatever the socket, the network and the timeout do, an answer is fetched only once and then owned by its frame; none is taken for a name that would not fit when expanded again. Where it leads is ResolverAnswers.SuccessResolved. |
| ResolverSafety.LongUnanswered | src/c/dns/libdns/dns.c:4985-5012 | A query whose name is too long for the verification of answers is never answered: its frame waits, fails or moves on to the next address. |
| ResolverSafety.StepSafe | src/c/dns/libdns/dns.c:5718-6217 | One transition from any machine that satisfies the invariant, under any network, hosts, hints, cache and allocation outcome: no assert fails, no missing or freed packet is used, nothing is freed twice, the stack is not left, and the invariant is kept. |
| ResolverRuns.CheckedSafe | src/c/dns/libdns/dns.c:6288-6295 | From submission through any number of checks, whatever they return: nothing crashes, the stack pointer is in 0..7, suspended frames are in RESOLV1_NS, CNAME1_A or SMART1_A, and every packet has one owner. |
| ResolverRuns.SucceedsFromDone | src/c/dns/libdns/dns.c:6186-6192 | No transition but DONE of the root frame returns success. |
| ResolverRuns.SuccessHasAnswer | src/c/dns/libdns/dns.c:6298-6311 | After every check that succeeds the root frame is in DONE and owns a live answer, which dns_res_fetch takes. |
| ResolverAnswers.SuccessResolved | src/c/dns/libdns/dns.c:5730-6207 | What that answer holds, over every run: an answer from a source the lookup order names, a denial by an authoritative server when referrals are followed, an alias together with what the frame above found for it, or a refusal after the last lookup. An alias nobody followed comes from the eighth frame only, never from the root. |
| ResolverAnswers.FoundIsKept | src/c/dns/libdns/dns.c:5730-6207 | Once the hosts file, the cache or a server has answered for the name asked, the run does not end in a refusal, whatever happens afterwards. |
| ResolverAnswers.RefusedLast | src/c/dns/libdns/dns.c:5759-5776 | A run that ends in a refusal has turned to every source the lookup order names. |
| ResolverServers.NotPassedOver | src/c/dns/libdns/dns.c:5910-5999 | Between a name server being picked and its frame coming back for another, the server was asked, or its address was looked up in the frame above; only the last frame may pass over one. |
| ResolverRuns.AfterSafe | src/c/dns/libdns/dns.c:6313-6331 | A caller that stops at the first result that is not EAGAIN never meets a crash. |
| ResolverTermination.SearchFalls | src/c/dns/libdns/dns.c:4004-4064 | Every name dns_resconf_search yields brings it closer to its end. |
| ResolverTermination.SwitchDrops | src/c/dns/libdns/dns.c:5759-5776 | SWITCH uses up an entry of the lookup list, or gives up for good. |
| ResolverTermination.FileLoopDrops | src/c/dns/libdns/dns.c:5777-5825 | Each round of the search in FILE leaves a shorter search list. |
| ResolverTermination.ForeachNsDrops | src/c/dns/libdns/dns.c:5910-5924 | FOREACH_NS uses up a name server or, with none left, an attempt. |
| ResolverTermination.Resolv0NsDrops | src/c/dns/libdns/dns.c:5925-5943 | RESOLV0_NS moves its own frame on, which outweighs the fresh frame it starts above. |
| ResolverTermination.Resolv1NsDrops | src/c/dns/libdns/dns.c:5944-5959 | RESOLV1_NS may rewind to the first name server, but only for glue, and then one server fewer lacks it. |
| ResolverTermination.ForeachADrops | src/c/dns/libdns/dns.c:5960-5999 | FOREACH_A uses up an address; a server without any is left to RESOLV0_NS. |
| ResolverTermination.QueryADrops | src/c/dns/libdns/dns.c:6000-6050 | QUERY_A without recursion leads to a later state, the next address or the next lookup. |
| ResolverTermination.Cname0ADrops | src/c/dns/libdns/dns.c:6051-6068 | CNAME0_A moves its own frame on before the alias is looked up above it, so a chain of aliases ends with the stack. |
| ResolverTermination.Smart0ADrops | src/c/dns/libdns/dns.c:6088-6161 | SMART0_A uses up a record to follow, or the one fallback to an address record. |
| ResolverTermination.Smart1ADrops | src/c/dns/libdns/dns.c:6162-6185 | SMART1_A returns to SMART0_A with that record used up. |
| ResolverTermination.DoneDrops | src/c/dns/libdns/dns.c:6186-6192 | DONE gives up a frame. |
| ResolverTermination.StepDrops | src/c/dns/libdns/dns.c:5718-6217 | Every transition but a QUERY_A under recursion makes the lexicographic measure over the frame stack fall, or is a wait, which changes nothing but memory. |
| ResolverRuns.Terminates | src/c/dns/libdns/dns.c:5727-6217 | Unless recursion is on, servers are asked and there is a question for them, for every infinite sequence of outcomes a run reaches its result after finitely many transitions or from some point on only waits. Cache and smart lookups included. |
| ResolverRuns.ReferralsForever | src/c/dns/libdns/dns.c:6037-6044 | In every other configuration a server that refers to itself keeps a run going for ever without one wait. |
| ResolverRuns.EndsIff | src/c/dns/libdns/dns.c:5727-6217 | The exact boundary over configurations: all runs end if and only if the configuration is not of that kind. |
| Permutor.DInvertsE | src/c/dns/libdns/dns.c:466-501 | dns_k_permutor_D inverts dns_k_permutor_E, for every round function and width. |
| Permutor.EInvertsD | src/c/dns/libdns/dns.c:466-501 | And the other way round. |
| Permutor.DrawsPermute | src/c/dns/libdns/dns.c:504-512 | Any `length` consecutive draws, from any point on, list the numbers below `length`, each exactly once. |
| Permutor.PowOf | src/c/dns/libdns/dns.c:418-425 | The least power of two that is not below the argument. |
| Permutor.PowOfDiverges | src/c/dns/libdns/dns.c:418-425 | Above 2^31 the doubled word wraps to 0 before it gets there: the loop never ends. |
| Permutor.Generator.constructor | src/c/dns/libdns/dns.c:427-449 | The range, and halves just wide enough for it. |
| Permutor.Generator.Encrypt | src/c/dns/libdns/dns.c:371-388 | TEA, cycle by cycle, against its specification. |
| Permutor.Generator.F | src/c/dns/libdns/dns.c:452-463 | The round function: the first TEA word, masked. |
| Permutor.Generator.E | src/c/dns/libdns/dns.c:466-482 | The loop over two-element arrays computes seven Feistel rounds. |
| Permutor.Generator.D | src/c/dns/libdns/dns.c:485-501 | The same rounds undone. |
| Permutor.Generator.Step | src/c/dns/libdns/dns.c:504-512 | The stepping loop ends, at the next output below `length`; the result lies in low..high. |
| Permutor.TeaVectors | src/c/dns/libdns/dns.c:371-388 | The cipher gives the published vector of 32 cycles under the zero key, and a value under a key of four different words. |
| Permutor.SameOutput | src/c/dns/libdns/dns.c:504-512 | The 32-bit wrap-around of the step counter does not disturb the sequence. |
| Permutor.QueryShift | src/c/dns/libdns/dns.c:4851-4873 | The generator of a socket, for 1..65535, has halves of eight bits. |
| Permutor.IdsNeverRepeat | src/c/dns/libdns/dns.c:4918-4920 | Among any 65535 consecutive query ids none is 0, none repeats and none is missing. |
| Permutor.QueryIds | src/c/dns/libdns/dns.c:4851-4920 | A new socket's generator, stepped k times: the ids are those, none is 0, and two less than 65535 apart differ. |
| Shuffle.SboxInverts | src/c/dns/libdns/dns.c:529-560 | The S-box is a permutation. |
| Shuffle.Shuffle | src/c/dns/libdns/dns.c:561-575 | The shuffle loop against its specification. |
| Shuffle.ShuffleVector | src/c/dns/libdns/dns.c:561-575 | One number, shuffled octet by octet. |
| Shuffle.ShuffleInjective | src/c/dns/libdns/dns.c:527-575 | For every seed, different 16-bit numbers shuffle to different numbers. |
| Iteration.KeysDiffer | src/c/dns/libdns/dns.c:2067-2095 | Both comparators order the records of a packet strictly, for every seed. |
| Iteration.FirstFrom | src/c/dns/libdns/dns.c:2012-2041 | The first search loop: the first wanted record from an offset on that compares larger, past nothing wanted. |
| Iteration.Lowest | src/c/dns/libdns/dns.c:2042-2063 | The second loop: the smallest of those that compare larger. |
| Iteration.Start | src/c/dns/libdns/dns.c:1960-2009 | dns_rr_i_start finds the smallest wanted record. |
| Iteration.Skip | src/c/dns/libdns/dns.c:2012-2064 | dns_rr_i_skip finds the next larger one. |
| Iteration.MatchesIff | src/c/dns/libdns/dns.c:1920-1930 | What the comparisons of dns_rr_i_match come to, by type, class and set of sections. |
| Iteration.RecordIterator.Grep | src/c/dns/libdns/dns.c:2108-2143 | Up to `lim` records at a time, fewer only at the end, never a parse error; each has the type and class asked for, unless any was, lies in a section of the mask, and passes the comparisons of name and data. |
| Iteration.Complete | src/c/dns/libdns/dns.c:2108-2143 | An iterator that stopped has returned exactly the records with the fields asked for, each once: by offset, or by section and within it by shuffle; and it must stop. |
| Hints.CmpSign | src/c/dns/libdns/dns.c:4371-4378 | The comparison is the order by priority, then shuffle, of addresses less than 2^31 apart; exactly that far apart each of two is below the other, and beyond it the larger one is. |
| Hints.Start | src/c/dns/libdns/dns.c:4381-4392 | Of an orderly set the address with the smallest key; of any set what InOrderIff speaks of. |
| Hints.Skip | src/c/dns/libdns/dns.c:4395-4417 | Of an orderly set the address with the next larger key, or none exactly when there is none. |
| Hints.OrderlyFaithful | src/c/dns/libdns/dns.c:4381-4417 | In an orderly set they find the smallest key, then the next larger one, or that there is none. |
| Hints.Blocked | src/c/dns/libdns/dns.c:4395-4417 | Where priorities are 2^31 apart with none between, the enumeration stops before the larger ones. |
| Hints.Overtaken | src/c/dns/libdns/dns.c:4381-4392 | Where one 2^31 above the smallest address stands behind it in the list, the enumeration does not start at the smallest. |
| Hints.WideGoesOn | src/c/dns/libdns/dns.c:4395-4417 | Where priorities are more than 2^31 apart, the enumeration does not end after the largest. |
| Hints.InOrderIff | src/c/dns/libdns/dns.c:4381-4459 | The exact condition: an enumeration shows every address once, by priority and then by shuffle, and ends, if and only if no priorities are more than 2^31 apart and, for those exactly 2^31 apart, others lie between and the smallest address stands behind all of the larger priority. |
| Hints.HintIterator.constructor | src/c/dns/libdns/dns.c:4420-4435 | A new enumeration starts at the smallest address of an orderly set. |
| Hints.HintIterator.Grep | src/c/dns/libdns/dns.c:4438-4459 | Up to `lim` addresses at a time, in order; fewer only at the end. |
| Hints.Complete | src/c/dns/libdns/dns.c:4438-4459 | An exhausted enumeration of an orderly set has shown every address exactly once, by priority and then by shuffle. |
| Scheduler.StepOk | src/c/ratchet.c:586-1338 | Every operation of the scheduler keeps: each pending event belongs to its thread's current park or is its alarm, and a thread in wait_all still waits for every listed thread that has not ended. |
| Scheduler.RunOk | src/c/ratchet.c:452-1338 | So that holds in every run. |
| Scheduler.OwesTheLive | src/c/ratchet.c:1090-1148 | wait_all notes the threads of its list that are live at the call, and waits for these and for those that were killed while yielded. |
| Scheduler.ResumedFromWaitAll | src/c/ratchet.c:623-659 | Nothing but start_threads_done_waiting resumes a thread parked in wait_all. |
| Scheduler.JoinSafety | src/c/ratchet.c:1090-1148 | In every run a thread parked in wait_all is resumed only after every listed thread that was live at the call has ended by return, error, kill or alarm. |
| Scheduler.FiredCancels | src/c/ratchet.c:235-338 | An event that fires cancels every event of its thread's park. |
| Scheduler.OneResume | src/c/ratchet.c:235-338 | Whatever resumes a thread leaves none of the events of its park pending: one park, one resume. |
| Scheduler.LiveIff | src/c/ratchet.c:1235-1254 | From a state where everything pending names a live thread, an operation keeps it so if and only if it does not end a thread that is parked in wait_all. |
| Scheduler.OwnershipOverRuns | src/c/ratchet.c:128-196 | In every run that spares those threads, each pending event, ready entry and wait_all entry names a live thread. |
| Scheduler.NoneRemains | src/c/ratchet.c:128-159 | In such runs nothing that could resume a thread remains once it has ended. |
| Scheduler.Revives | src/c/ratchet.c:1235-1254 | A thread killed in wait_all has ended but keeps its waiting_on entry. |
| Scheduler.Revival | src/c/ratchet.c:623-659 | A run in which such a thread is resumed after its end and parks on a new event. |
| Wakeups.Woken | src/c/ratchet.c:1208-1231 | In every run a thread that was unpaused, or attached, is ready from then on until it is resumed, and can be whenever no thread runs. |
| Wakeups.JoinIff | src/c/ratchet.c:1090-1148 | In every run a thread in wait_all waits for exactly those threads live at the call that have not ended; once all have, and it listed none killed before, it is due. |
| Wakeups.AlarmHolds | src/c/ratchet.c:1293-1338 | In every run an alarm is pending until it fires, its thread sets another, or its thread ends; when it fires, the thread ends. |
| Deadlock.RunArmed | src/c/ratchet.c:586-1338 | In every run the events a parked thread waits for are pending and its own, and a thread that can run is in `ready`. |
| Deadlock.DeadlockStuck | src/c/ratchet.c:453-503 | In every run a reported deadlock is one: each thread that is left is paused, waits for a thread that has not ended, or waits for an event out of none. |
| Deadlock.DeadlockIff | src/c/ratchet.c:453-503 | In runs that end no thread parked in wait_all, a deadlock is reported if and only if threads are left, all of them stuck, and none has an alarm to come. |
| Ratchet.Tables.StrikeOff | src/c/ratchet.c:152-158 | The loop over waiting_on takes the thread off every list, and off nothing else. |
| Ratchet.Tables.EndThreadPersist | src/c/ratchet.c:128-159 | end_thread_persist: the thread leaves the tables, its alarm is deleted, and nobody waits for it any more. |
| Ratchet.Tables.EndWaitingEvents | src/c/ratchet.c:163-196 | end_all_waiting_thread_events deletes exactly the events of the park, one or a list. |
| Ratchet.Tables.Kill | src/c/ratchet.c:1235-1254 | kill: the park's events go, then the tables forget the thread. |
| Ratchet.Tables.KillAll | src/c/ratchet.c:1258-1289 | kill_all: kill, one after the other. |
| Ratchet.Tables.WaitAll | src/c/ratchet.c:1090-1148 | wait_all lists the members that are not finished or failed; a list item that is no thread is an error, raised before anything changes. |
| Ratchet.Tables.AddEvents | src/c/ratchet.c:972-1028 | The loops that queue a list of events give each its own number and the same owner. |
| Ratchet.Tables.BlockMany | src/c/ratchet.c:886-1032 | A signal or multi wait parks on a list of events. |
| Ratchet.Tables.End | src/c/ratchet.c:712-759 | run_thread after a return or an error. |
| Ratchet.Tables.Fire | src/c/ratchet.c:235-338 | The callbacks: siblings are cancelled, the thread is resumed, an alarm ends it. |
| Ratchet.Tables.Perform | src/c/ratchet.c:712-759 | A resumed thread makes its calls, in order, until it stops; the run is extended by exactly these operations, and no thread that was due is forgotten. |
| Ratchet.Tables.StartThreadsReady | src/c/ratchet.c:586-619 | start_threads_ready resumes every thread that was ready and ends with none ready, also of those that became so meanwhile. |
| Ratchet.Tables.StartThreadsDoneWaiting | src/c/ratchet.c:623-659 | start_threads_done_waiting resumes every thread whose list had run empty at the start, whatever the others do in between. |
| Ratchet.Tables.FireEvents | src/c/ratchet.c:492-497 | One turn of the event loop: each event that was due has fired or was cancelled, unless it is an alarm that could not fire; the run stays a possible one. |
| Ratchet.Tables.LoopOnce | src/c/ratchet.c:453-503 | loop_once: the end of the program and the deadlock are reported exactly when there is nothing to run and no thread, or no event; a deadlock names threads that are all stuck; every thread that was ready is resumed, else every thread whose list ran empty, else every event that was due has fired or was cancelled. |
| Ratchet.Tables.Loop | src/c/ratchet.c:506-533 | ratchet_loop: whatever the threads and the event library do, the whole execution is a run to which the theorems about runs apply. |
| DataReader.FeedConcat | src/lua/smtp/data_reader.lua:63-71 | What the reader holds depends only on the octets it was given, not on how they were cut. |
| DataReader.Recovers | src/lua/smtp/data_reader.lua:28-71 | Given the dot-stuffed form of any message, CRLF.CRLF and anything behind it, the reader holds exactly the message and the rest. |
| DataReader.NotBefore | src/lua/smtp/data_reader.lua:37-71 | Before the last octet of that it has found no end. |
| DataReader.Transparent | src/lua/smtp/data_reader.lua:73-119 | For every message, every following octets and every way to cut the stream into the buffer and later reads, the message is returned unchanged, and the new buffer with the unread pieces is what followed; with a size limit this is so if and only if the pieces that have to be read keep to it, else the limit is reported. |
| DataReader.Reader.FinishLine | src/lua/smtp/data_reader.lua:28-61 | A finished line ends the data or loses its stuffed dot; the line before the end loses its line end. |
| DataReader.Reader.AddLines | src/lua/smtp/data_reader.lua:63-71 | Line by line the same as octet by octet. |
| DataReader.Reader.Recv | src/lua/smtp/data_reader.lua:73-119 | The reading loop, with its outcomes: message, size limit, closed connection. |
| SocketPad.SplitIff | src/lua/socketpad/init.lua:130-143 | The two pieces update_send_buffer cuts make up the data if and only if the buffer is not one octet over the chunk size; then both are the whole data. |
| SocketPad.LoopEndsIff | src/lua/socketpad/init.lua:130-143 | The loop of update_send_buffer ends if and only if the chunk size is at least one octet. |
| SocketPad.ConservedIff | src/lua/socketpad/init.lua:114-168 | Over every sequence of sends and changes of behaviour, what was sent and is buffered grows by exactly what was handed over, if and only if no send meets a buffer one octet over the chunk size. |
| SocketPad.SentTwice | src/lua/socketpad/init.lua:114-157 | A new pad that is handed three octets, told to send in chunks of two, and handed one more, sends that one twice. |
| SocketPad.Pad.Flush | src/lua/socketpad/init.lua:160-169 | Everything buffered is sent, across partial sends, and nothing else. |
| SocketPad.Pad.UpdateSendBuffer | src/lua/socketpad/init.lua:130-143 | The loop against its specification, for every buffer and chunk size from one octet on. |
| SocketPad.Pad.Send | src/lua/socketpad/init.lua:145-158 | A send against its specification; within the chunk size sent and buffered octets grow by exactly the data; unless more is announced the buffer ends empty, and while more is and nothing exceeds the chunk size, nothing is sent. |
| SocketPad.Pad.Serve | src/lua/socketpad/init.lua:114-158 | Any sequence of sends and changes of behaviour; exactly the octets handed over go out if and only if no buffer is one octet over. |
| SocketPad.Pad.RecvOnce | src/lua/socketpad/init.lua:24-30 | What arrives goes behind the buffer. |
| SocketPad.Pad.Recv | src/lua/socketpad/init.lua:32-47 | No octet is lost or made up; too few only at the end of the stream; nothing is read from the socket when the buffer suffices. |
| Wire.PutSpells | src/c/dns/libdns/dns.c:1092-1095 | Integers are written most significant octet first: the octets spell the number in base 256. |
| Wire.GetSpelled | src/c/dns/libdns/dns.c:1745-1760 | Reading gives the number the octets spell. |
| BusFraming.SendPart | src/lua/bus/client.lua:22-29 | A part behind its 32-bit length. |
| BusFraming.SendRequest | src/lua/bus/client.lua:31-46 | Exactly the frame of the parts is sent, and the buffer ends empty. |
| BusFraming.PopResumes | src/lua/bus/server.lua:94-115 | Popping what has arrived and going on later is the same as popping everything at once. |
| BusFraming.FramePops | src/lua/bus/server.lua:60-115 | A whole frame with anything behind it pops to exactly the parts sent and leaves the rest. |
| BusFraming.NotBefore | src/lua/bus/server.lua:94-115 | Before the last octet of a frame no request is complete. |
| BusFraming.Arrives | src/lua/bus/server.lua:94-115 | For every prefix that has arrived: a request comes out if and only if the whole frame is there, it has exactly the parts sent, and surplus octets stay. |
| BusFraming.ArrivesInPieces | src/lua/bus/server.lua:139-152 | For every way to cut a frame and what follows it into reads, receiving and popping yields exactly the parts sent, and buffer and unread pieces are what followed. |
| BusFraming.WaitsForMore | src/lua/bus/server.lua:139-152 | Pieces that stop short of the last octet yield no request, and all are read. |
| BusFraming.Request.PopCount | src/lua/bus/server.lua:60-71 | pop_num_parts against its specification; the socket is not touched. |
| BusFraming.Request.PopLen | src/lua/bus/server.lua:73-81 | pop_part_len, likewise. |
| BusFraming.Request.PopData | src/lua/bus/server.lua:83-92 | pop_part_data, likewise. |
| BusFraming.Request.PopFullRequest | src/lua/bus/server.lua:94-115 | pop_full_request pops all it can, yields a request exactly when it is complete, and never waits for the socket. |
| BusFraming.Request.RecvRequest | src/lua/bus/server.lua:139-152 | The receiving loop of one connection against its specification. |
| MxIndex.Index.constructor | src/c/dns/dns.c:285-302 | An empty index. |
| MxIndex.Index.InsertPriority | src/c/dns/dns.c:236-281 | The priorities stay strictly increasing and gain the new one. |
| MxIndex.Index.Shift | src/c/dns/dns.c:261-270 | The shifting loop. |
| MxIndex.Index.Add | src/c/dns/dns.c:285-337 | A record more, the index still in step with the records. |
| MxIndex.Index.Get | src/c/dns/dns.c:702-740 | get_i(k) is the k-th host in the index's order; beyond the last it wraps around, and finds nothing at multiples of the count. |
| MxIndex.StableSortUnique | src/c/dns/dns.c:236-337 | There is only one stable order by preference. |
| MxIndex.OrderIsStableSort | src/c/dns/dns.c:236-337 | The index's order is that one: the records stably sorted by preference. |
| SmtpSession.Session.Handle | src/lua/smtp/server.lua:231-472 | The three flags the server keeps decide every command as the whole record of accepted commands would: accepted exactly when nothing else speaks against it and the order permits it; HELO withdraws every extension, STARTTLS itself. |
| SmtpSession.Session.Greet | src/lua/smtp/server.lua:250-255 | An accepted greeting closes any mail transaction. |
| SmtpSession.Session.Serve | src/lua/smtp/server.lua:231-472 | The same over any sequence of commands: each answer, and what is remembered at the end, are those of replaying the whole record. |
| SmtpSession.PermittedIff | src/lua/smtp/server.lua:231-472 | When the order permits a command, by what stands in the record of accepted commands and what does not. |
| SmtpSession.OneSender | src/lua/smtp/server.lua:333-341 | Between two accepted senders a greeting, a body or a reset closed the first transaction. |
| SmtpSession.HeloWithdraws | src/lua/smtp/server.lua:259-281 | After an accepted HELO no STARTTLS and no sender with a size is accepted any more. |
| SmtpSession.TlsOnce | src/lua/smtp/server.lua:283-315 | Whatever commands come, a session accepts STARTTLS at most once. |
| SmtpSession.BodyAfterRecipient | src/lua/smtp/server.lua:419-446 | Wherever a body was read, a sender and after it a recipient had been accepted, with nothing in between that closes a transaction. |
| SmtpSession.SenderAfterGreeting | src/lua/smtp/server.lua:333-341 | Wherever a sender was accepted, a greeting had been accepted since the last STARTTLS. |
| TcpReassembly.Receiver.Take | src/c/dns/libdns/dns.c:5053-5065 | One read lands at its place and never beyond the announced end. |
| TcpReassembly.Receiver.Recv | src/c/dns/libdns/dns.c:5045-5080 | Across every fragmentation and suspension: completion exactly when the announced octets are there, equal to the stream behind the length, inside the buffer; and it comes once enough has arrived. |

## Left out

- Packets.Packet.PushRun: ends at a failed push that leaves an entry behind the end (the exact condition is in Packets.Packet.PPush, what may follow in FailedPushes.StrayLoops). Names are claimed to read back after at most 47 failed pushes: each can lengthen chains of pointers, and expansion gives up at 127 of them in a row.
- Packets.Packet.PPush: names whose labels have 1 to 63 octets; empty and over-long labels, which the encoder truncates, are not stated. SRV and SSHFP data are not modelled.
- Savings.Saves: says nothing of names that have the first label of the tail elsewhere, after which the search may hold another label, nor of names pushed into a full dictionary, which are not listed.
- Packets.Packet.DExpand: offsets from which expansion ends. On cyclic names dns_d_expand resets its pointer count after each label and has no end (src/c/dns/libdns/dns.c:1612).
- Packets.Packet.DPush: no growing of the packet; dns_p_grow copies a packet and is not modelled.
- ResolverSafety.StepSafe: says nothing of memory that is never freed; GLUE and HINTS overwrite a packet they do not free.
- ResolverSafety.QueryAOk: whether a name fits is settled when it is submitted; the query is taken to parse and expand in the same way when its answer arrives.
- ResolverAnswers.SuccessResolved: what a packet holds for the name asked is an input, as are the records a merge or a copy of glue adds.
- ResolverRuns.CheckedSafe: covers the calls between submission and fetch; dns_res_fetch hands the answer over and is not a transition.
- Permutor.Generator.constructor: ranges of at most 2^31 numbers; beyond that the source does not return (Permutor.PowOfDiverges).
- Hints.Complete: for orderly sets; other sets are not enumerated in order (Hints.InOrderIff).
- Iteration.Complete: packet and shuffle order over an unchanged packet; dns_rr_i_order compares TXT records by a function that is no order.
- Scheduler.JoinSafety: unpause only for threads parked by pause, and no kill of the running thread or of one in `ready`, whose entry would outlive it; an alarm does not fire on a thread in `ready`, where the callback raises an internal error.
- Scheduler.StepOk: errors raised inside wait_for_read, wait_for_write or wait_for_multi abort the loop and are not modelled; nor are garbage collection and the alarm callback.
- Ratchet.Tables.LoopOnce: libevent's choice of events is an input, as is what a thread does; calls outside the preconditions of Scheduler.Enabled are passed over. Breaking out of the loop and error handlers are not modelled.
- SocketPad.Pad.Send: chunk sizes of at least one octet; with others the source does not return (SocketPad.LoopEndsIff).
- BusFraming.ArrivesInPieces: 1 to 65535 parts of less than 2^32 octets.
- BusFraming.Request.RecvRequest: one connection; the choice among several, and a connection's request left in `updated` after it was handed out, are not modelled.
- MxIndex.Index.Get: an index with at least one record; the source makes no other.
- SmtpSession.Session.Handle: address syntax, parameters, handler replies and body contents are inputs; handlers that edit the extension list are not modelled, nor is a connection that breaks while a body is read.
- TcpReassembly.Receiver.Recv: allocation succeeds.
- Sending over TCP (dns_so_tcp_send adds its offset twice when resumed), dns_p_merge and comparison of records by rdata.
- data_sender and smtp_io.recv_reply; HTTP, exec, sockets, TLS, ZeroMQ, configuration and hosts files, printing.
- Lua stack handling and errno tables.
