# AgentX subagent, verified

A Dafny model of the subagent side of AgentX (RFC 2741): the wire codec and the frame reader, the
protocol engine with its sessions, and the OID order and list handler that answer requests. The
project verifies with `dafny verify dfyconfig.toml`.

## What is modelled

**Codec.** `Wire` has integers in both byte orders; `ObjectIdentifiers`, `OctetStrings`,
`SearchRanges`, `VarBinds`, `VarBindLists`, `Headers` and `Packets` have an encoder and a decoder
each, as functions of a byte order. The library's own encoders write payloads in little-endian only,
so a `MarshalBinary` method is proved to be the `Little` instance of the encoder, while decoders are
proved in both orders. `Framing` reads frames off a stream and assembles them. Where a law of the
codec fails, the exact condition is proved: the end of an octet string is a 32-bit sum that wraps, so
one comes back if and only if it is shorter than 2^32 - 4, and a frame of the library under a header
that declares network byte order is read back if and only if nothing in it depends on the order.
`Walks` has what walking over a list of ranges or of bindings has in common, and `Layouts` says octet
by octet, and number by number, what RFC 2741 asks to be on the wire.

**Engine.** `Sessions` is the handling of one request, `SessionAnswers` what it comes to, kind by kind,
and `SetTransactions` the history of two-phase sets over whole runs of a session. `Correlation`, with
`CallOutcomes`, `Routing`, with `Reopens`, `ErrorChannel` and `Engine` are systems
of interleaved steps, one step per statement at which another goroutine can come in between. Handler
answers, timeouts, replies of the master agent and the moment of every close are arbitrary inputs to
the steps, and a run is any sequence of enabled steps, so that theorems about runs hold for every
schedule. `Engine` follows each PDU received from the connection to the frame that answers it;
`EngineInvariant` and `EngineOrigins` prove what each step keeps, `EngineRuns` states the theorems,
from the octets of a connection to the frames that answer them, and `EngineClosing` says what still
reaches a session that was closed. `Clients` has the client's tables in imperative form.

**OIDs and the list handler.** `Oids` has the lexicographic order, sorting, and dotted text with its
inverse. `ListHandlers` proves that the sorted slice and the map keyed by text behave like one
ordered map, and that a GetNext walk visits all of it. `Add` files an item under the text it was
given while lookups print the OID, so the two structures agree if and only if no text added has a
superfluous leading zero, and answers are right if and only if any such text comes after the
canonical one.

Go strings and byte slices are sequences of octets, durations are whole nanoseconds, and the widths
of integers are subset types, with wrap-around and truncation written out where the code has them.

## Model

| member | source | states |
|---|---|---|
| Wire.GetPut | pdu/header.go:56-66 | reading an integer written in n octets gives it back, in either byte order |
| Wire.PutGet | pdu/header.go:74-90 | writing what was read from octets gives the octets back |
| Layouts.Get16Is | pdu/header.go:42-53 | a 16-bit number is 256 times its first octet plus its second in network order, and the other way round otherwise |
| Layouts.Get32Is | pdu/header.go:42-53 | a 32-bit number is made of two such halves, the more significant first in network order and last otherwise |
| Layouts.Get64Is | pdu/variable.go:258-262 | likewise a 64-bit number of two words |
| Layouts.HeaderLayout | pdu/header.go:74-90 | version, type and flags are octets 0 to 2, and the ids and the length are the words at 4, 8, 12 and 16, in network order exactly when bit 4 of the flags is set |
| Layouts.HeaderOctets | pdu/header.go:56-66 | a header is written so, in the order its own flags declare, with the reserved octet zero |
| Layouts.StreamLayout | client.go:416-449 | from the octets of the next header: when a stream ends, when it is untrusted, when a PDU is read and how many octets it takes |
| Layouts.BodyLayout | client.go:434-449 | a PDU is a frame exactly when octet 0 is 1 and its payload decodes as its type and flags say, and is malformed otherwise |
| Layouts.OidLayout | pdu/object_identifier.go:90-113 | which octets are an identifier, and which are its prefix, include field and sub-identifiers |
| Layouts.OidOctets | pdu/object_identifier.go:67-80 | an identifier of at most 128 sub-identifiers is written so, with the reserved octet zero |
| Layouts.IdentifierMeans | pdu/object_identifier.go:47-59 | a prefix p stands for 1.3.6.1.p before the sub-identifiers, and what the library builds has none |
| Layouts.TextLayout | pdu/octet_string.go:58-73 | which octets are an octet string, and which of them are its text |
| Layouts.TextOctets | pdu/octet_string.go:37-48 | a text is written as its length, its octets and zeros up to a multiple of four |
| Layouts.RangeLayout | pdu/range.go:45-57 | a range is the identifier where it starts and then the one where it ends |
| Layouts.BindingLayout | pdu/variable.go:206-294 | which octets are a binding, with its type in the first two and its name from the fifth, and what each of the thirteen types, by number, makes of its data |
| Layouts.BindingOctets | pdu/variable.go:50-183 | which values each type can write, by number, and the octets: a signed or unsigned word, ticks of a duration, a text, four octets of an address with or without the mapped prefix, an OID given as such or as text |
| Layouts.AddressIs | pdu/variable.go:135-151 | an address is four octets, or the last four of sixteen that begin with ten zeros and two octets of ones |
| Layouts.ResponseLayout | pdu/response.go:54-71 | a response is read as its time in ticks from the word at 0, its error and index from the halves at 4 and 6, and bindings |
| Layouts.TypeNumbers | client.go:451-472 | which number stands for which kind of PDU read, and that all but 11 and 18 expect a response |
| Layouts.AcceptedPayloads | client.go:484-489 | which payloads of each kind are accepted, those of types not implemented being ignored |
| Layouts.SentNumbers | pdu/type.go:10-31 | which number each kind of packet is sent with |
| Layouts.OpenOctets | pdu/open.go:29-48 | an Open encodes for a timeout of 0 to 255 seconds, to its whole seconds, three zeros, the identifier and the text |
| Layouts.CloseOctets | pdu/close.go:20-22 | a Close is its reason and three zeros |
| Layouts.RegisterOctets | pdu/register.go:28-40 | a Register is its timeout, its priority, two zeros and the subtree |
| Layouts.UnregisterOctets | pdu/unregister.go:26-35 | an Unregister is a zero, its priority, two zeros and the subtree |
| Oids.CmpIsLexicographic | value/oid.go:77-94 | the comparison is -1 exactly when the OIDs part at some position, the first being smaller there or ending there |
| Oids.CmpAntisymmetric | value/oid.go:77-94 | swapping the arguments negates the comparison, and only equal OIDs compare equal |
| Oids.CmpTransitive | value/oid.go:77-94 | the order is transitive, strictly so when either comparison is strict |
| Oids.CompareOIDs | value/oid.go:77-94 | the loop computes the lexicographic comparison |
| Oids.CommonPrefix | value/oid.go:57-68 | a prefix of both OIDs that neither could have longer |
| Oids.SortSorts | value/oid.go:97-101 | the sorted list is in order and a permutation of the original |
| Oids.SortedIsUnique | value/oid.go:97-101 | two sorted lists with the same elements are the same list, so any sort gives this one |
| Oids.SortOIDs | value/oid.go:97-101 | the array is left holding the sorted permutation of what it held |
| Oids.DecimalIsParsed | value/oid.go:103-111 | the decimal form of a number is digits only, has no superfluous leading zero, and is read back as the number |
| Oids.CanonicalIsPrinted | value/oid.go:19-32 | a part without superfluous leading zero is the decimal form of the number it is read as |
| Oids.JoinSplit | value/oid.go:19-32 | joining the parts a text splits into gives the text |
| Oids.SplitJoin | value/oid.go:103-111 | splitting joined parts that hold no dot gives the parts |
| Oids.ParsePrint | value/oid.go:19-32 | parsing the printed form of any non-empty OID gives it back, and the printed empty OID does not parse |
| Oids.PrintInjective | value/oid.go:103-111 | OIDs that print alike are equal |
| Oids.PrintParse | value/oid.go:19-32 | printing a successful parse gives the text back exactly when no part has a superfluous leading zero |
| Oids.LeadingZeroExample | value/oid.go:19-32 | "01" parses as the OID 1, which prints as "1" |
| Oids.TextNumbers | value/oid.go:103-111 | digits and dot are those of ASCII |
| Oids.ParseOID | value/oid.go:19-32 | the loop over the parts computes the parse, failing when any part fails |
| Oids.String | value/oid.go:103-111 | the loop over the sub-identifiers computes the printed form |
| ObjectIdentifiers.RoundTrip | pdu/object_identifier.go:67-113 | an encoded identifier is decoded to itself whatever octets follow, in either order |
| ObjectIdentifiers.Reencode | pdu/object_identifier.go:67-113 | re-encoding a decoded identifier restores its octets except that the reserved one is cleared |
| ObjectIdentifiers.WrongOrder | pdu/object_identifier.go:67-113 | a little-endian identifier read as a big-endian one always parses, each sub-identifier having its octets swapped |
| ObjectIdentifiers.MarshalBinary | pdu/object_identifier.go:67-80 | the loop writes the little-endian encoding, and fails on more than 128 sub-identifiers |
| ObjectIdentifiers.UnmarshalBinaryOrder | pdu/object_identifier.go:90-113 | the loop computes the decoder, with the same three failures |
| OctetStrings.DecodeEncode | pdu/octet_string.go:37-73 | what comes back from an encoded text is as many of its octets as the truncated length field says, and the decoder panics exactly when that field is one of the last four 32-bit numbers |
| OctetStrings.RoundTrip | pdu/octet_string.go:37-73 | a text comes back whatever follows it exactly when it is shorter than 2^32 - 4, so that its end is a 32-bit number |
| OctetStrings.WrapExample | pdu/octet_string.go:63-70 | a text of 2^32 - 4 octets fits its length field, yet its end wraps to zero and the decoder panics |
| OctetStrings.NeverPanics | pdu/octet_string.go:63-70 | on data shorter than 2^32 octets the 32-bit end of the text never wraps and lies within the data |
| OctetStrings.PaddingAligns | pdu/octet_string.go:25-34 | padding brings a length to the next multiple of four with fewer than four octets |
| OctetStrings.DecodeWithinAligned | pdu/octet_string.go:58-73 | on data of a length that is a multiple of four the padding is there although it is not looked for |
| OctetStrings.PaddingNotChecked | pdu/octet_string.go:58-73 | cutting a text off before its padding changes nothing in what is decoded, although it is then counted as longer than the data |
| OctetStrings.MarshalBinary | pdu/octet_string.go:37-48 | length, octets and the padding loop make up the little-endian encoding |
| Walks.WalkIsUnique | pdu/variables.go:45-57 | for lists of ranges and of bindings alike, the data alone decides the items and the end of a walk that cannot go on |
| Walks.WalkDecides | pdu/variables.go:45-57 | such a walk has decoded the list if it got to the end of the data, and otherwise the list does not decode |
| SearchRanges.RoundTrip | pdu/range.go:19-57 | an encoded range is decoded to itself with the include field of its end cleared, whatever follows |
| SearchRanges.ListRoundTrip | pdu/ranges.go:13-44 | the concatenated encoding of any encodable list is decoded to the normalised list |
| SearchRanges.ListWrongOrder | pdu/ranges.go:13-44 | a little-endian list read as a big-endian one always parses, with all sub-identifiers swapped |
| SearchRanges.DecodesByWalking | pdu/ranges.go:33-44 | decoding the list is walking over its ranges |
| SearchRanges.EncodeAligned | pdu/ranges.go:13-23 | the encoded list is a whole number of words |
| SearchRanges.Ranges.MarshalBinary | pdu/ranges.go:13-23 | the loop appends the encodings, failing when any range fails |
| SearchRanges.Ranges.UnmarshalBinaryOrder | pdu/ranges.go:33-44 | the ranges are those of the walk from the start up to where it cannot go on, which is the offset: the end of the data on success, and where a range does not parse on failure; each takes at least eight octets |
| VarBinds.DecodeEncode | pdu/variable.go:50-294 | what a binding's encoding decodes to, whatever follows and however long its text: its name and type, the value its data stands for with a text cut to what its length field says, and the size of that |
| VarBinds.EncodedPanics | pdu/variable.go:228-294 | an encoded binding makes the decoder panic exactly when its length field is one of the last four 32-bit numbers |
| VarBinds.RoundTrip | pdu/variable.go:50-294 | an encoded binding whose text is shorter than 2^32 - 4 is decoded to its normal form and takes exactly its encoded size, whatever octets follow |
| VarBinds.RoundTripFails | pdu/variable.go:163-171 | a binding with a longer text does not come back |
| VarBinds.EncodeNormal | pdu/variable.go:76-161 | a binding and its normal form have the same encoding, or neither has one |
| VarBinds.DecodeGivesNormal | pdu/variable.go:228-294 | a decoded binding is representable and in normal form, except for an IPv4-mapped address of 16 octets |
| VarBinds.DecodeWithinAligned | pdu/variable.go:206-226 | on aligned data a binding takes a whole number of words that are all there |
| VarBinds.EncodeAligned | pdu/variable.go:50-70 | an encoded binding is a whole number of words |
| VarBinds.WrongOrder | pdu/variable.go:206-294 | a little-endian binding read as big-endian never parses |
| VarBindLists.NormalAt | pdu/variables.go:25-57 | the normal form of a list is that of each of its bindings in place |
| VarBindLists.RoundTrip | pdu/variables.go:25-57 | the encoding of a list is decoded to its normal form, in either order, exactly when every text is shorter than 2^32 - 4 |
| VarBindLists.EncodeNormal | pdu/variables.go:25-35 | a list and its normal form have the same encoding |
| VarBindLists.EncodeAppend | pdu/variables.go:18-35 | a list with a binding added encodes exactly when both do, to the one encoding after the other |
| VarBindLists.AddComesBack | pdu/variables.go:18-22 | adding a binding adds its normal form at the end of what comes back, exactly when its text and those before it are shorter than 2^32 - 4 |
| VarBindLists.FixedPoint | pdu/variables.go:25-57 | whatever a list was decoded from, its re-encoding decodes to it with IPv4-mapped addresses down to four octets, and that encodes to the same octets again |
| VarBindLists.EncodeAligned | pdu/variables.go:25-35 | the encoded list is a whole number of words |
| VarBindLists.WrongOrder | pdu/variables.go:45-57 | a little-endian list read as big-endian parses exactly when it is empty |
| VarBindLists.DecodesByWalking | pdu/variables.go:45-57 | decoding the list is walking over its bindings, the last of which may be counted longer than the data |
| VarBindLists.Variables.MarshalBinary | pdu/variables.go:25-35 | the loop appends the encodings, failing when any binding fails |
| VarBindLists.Variables.UnmarshalBinaryOrder | pdu/variables.go:45-57 | the bindings are those of the walk from the start up to where it cannot go on, which is the offset: past the last octet on success, never past the end of aligned data, and where a binding does not parse on failure; each takes at least eight octets |
| VarBindLists.NeverPanics | pdu/variables.go:45-57 | decoding a list of fewer than 2^32 octets never panics |
| Headers.RoundTrip | pdu/header.go:56-90 | every header is read back in the byte order it declares itself, whatever follows |
| Headers.DecodeLocal | pdu/header.go:74-90 | a header is read from its own octets only |
| Headers.HeaderRecord.UnmarshalBinary | pdu/header.go:74-108 | all fields are filled in before they are validated, and short data changes none |
| Packets.CompareDecides | pdu/notify.go:57-59 | comparing a name with an OID to 0 is asking whether they are equal |
| Packets.ValidNotifyIsShape | pdu/notify.go:74-87 | a list is accepted exactly when snmpTrapOID.0 comes first, or second after sysUpTime.0 |
| Packets.ResponseRoundTrip | pdu/response.go:36-71 | the three fixed fields and the bindings of a response are found where they were written |
| Packets.RoundTrip | client.go:451-489 | the payload of each packet exchanged with a master agent comes back in normal form, in either order, exactly when the texts of its bindings are shorter than 2^32 - 4 |
| Packets.NotifyNormalForm | pdu/notify.go:47-109 | a notification that encodes has the required shape, and so has its normal form, which encodes to the same octets whatever the timestamp and is what comes back exactly when the texts are shorter than 2^32 - 4 |
| Packets.AcceptedNotify | pdu/notify.go:74-87 | number by number, which lists are accepted |
| Packets.TimestampIsConveyed | pdu/notify.go:47-68 | a timestamp that is not zero is sent and read back as a first binding sysUpTime.0 in whole ticks modulo 2^32, unless the list begins with one, and is refused when negative |
| Packets.NoStampIsAdded | pdu/notify.go:47-109 | otherwise the bindings read back are those given, and the timestamp is that of a leading sysUpTime.0 or zero |
| Packets.EncodeAligned | pdu/header_packet.go:18-34 | every payload, of all thirteen kinds of packet, has a length that is a multiple of four |
| Packets.DecodeKeepsType | client.go:451-472 | a decoded packet is of the type the header gave |
| Packets.WrongOrder | client.go:484-489 | what each of the library's payloads is read as in the wrong order: numbers swapped, or a failure when there are bindings |
| Packets.SwappedIsNormal | client.go:484-489 | that is the packet itself exactly when every sub-identifier, the time, error and index have the same octets in both orders and there are no bindings |
| Framing.HeaderPacket.MarshalBinary | pdu/header_packet.go:18-34 | the frame is the stamped header and the payload; version, type and length of the header are overwritten, unless the packet does not encode, when none is |
| Framing.ReadHeaderPacket | client.go:416-449 | the reader computes the frame read, with its four outcomes and the octets it takes |
| Framing.ReadLocal | client.go:416-449 | what is read from a whole frame depends on that frame alone and takes exactly its octets |
| Framing.NeverDrifts | client.go:292-331 | a stream of frames gives one result per frame, in order, each that of the frame alone, whatever their versions and payloads, and then what the rest gives |
| Framing.EveryStreamSplits | client.go:416-449 | any stream is whole frames and a tail that is too short or has an implausible length, where reading stops |
| Framing.FrameHeader | pdu/header_packet.go:18-34 | every encoded frame carries the ids given, its packet's type, and a length that is a multiple of four |
| Framing.FrameRoundTrip | client.go:416-449 | a frame written in the order its flags declare is read back with its ids and normalised packet, leaving the following octets unread, exactly when its payload is at most 2^20 |
| Framing.FlagSetFrame | pdu/header_packet.go:18-34 | how the library's own frame of each kind is read under a header that declares network byte order, and that it is read back exactly when nothing in it depends on the order |
| Framing.TooLong | client.go:423-431 | a frame with a payload above 2^20 makes the stream untrusted, or, when its truncated length is plausible, is cut short and the rest of it read as frames |
| Framing.ReaderNeverPanics | client.go:437-446 | no payload the reader decodes makes a decoder panic |
| Framing.RunReceiver | client.go:286-335 | the receiver's loop gives exactly one event per PDU of a connection, in order: delivered, answered with parseError, or swallowed |
| ListHandlers.OidWithin | list_handler.go:99-109 | whether an OID lies in the range, its start counting if included and an empty end being no bound |
| ListHandlers.WithinIsBetween | list_handler.go:99-109 | in terms of lexicographic order, a range goes from its start, if included, up to but not including its end |
| ListHandlers.SetIsMeant | list_handler.go:28-40 | setting keeps slice and map in agreement and is the update of the ordered map, or nothing for an OID not stored |
| ListHandlers.AddAgrees | list_handler.go:43-61 | adding keeps slice and map in agreement exactly when the text is there already, does not parse, or has no superfluous leading zero |
| ListHandlers.AddIsMeant | list_handler.go:43-61 | adding canonical text inserts an empty item into the ordered map, or nothing if it is stored |
| ListHandlers.RunRefines | list_handler.go:28-61 | after any sequence of Adds and Sets the slice is strictly sorted with the keys exactly its printed OIDs if and only if no text added had a superfluous leading zero, and then the contents are those of the ordered map |
| ListHandlers.AnswersIffShadowed | list_handler.go:28-92 | Get and GetNext answer as the ordered map does after every step of any history exactly when each Add of non-canonical text comes after an Add of the canonical text of the same OID |
| ListHandlers.LookupIsContents | list_handler.go:64-78 | a lookup answers what the ordered map holds |
| ListHandlers.FirstIsNext | list_handler.go:81-92 | on a strictly sorted slice the first OID in the range is the least, and if none is found none is in the range |
| ListHandlers.NextIsContents | list_handler.go:81-92 | GetNext is the least stored OID in the range with its content in the ordered map |
| ListHandlers.AboveIsExact | list_handler.go:81-109 | what a walk visits is every stored OID above the start, in strict order |
| ListHandlers.AboveStep | list_handler.go:81-109 | one GetNext takes the first of the OIDs still above the cursor and leaves the others |
| ListHandlers.Walk | list_handler.go:81-109 | feeding each OID back terminates and visits exactly the stored OIDs above the start |
| ListHandlers.ListHandler.Set | list_handler.go:28-40 | the state becomes that of the Set operation; keys and items stay |
| ListHandlers.ListHandler.Add | list_handler.go:43-61 | the state becomes that of the Add operation, the item returned is the one stored under the text, and there is none for a new text that does not parse |
| ListHandlers.ListHandler.Get | list_handler.go:64-78 | the answer is the lookup of the printed OID |
| ListHandlers.ListHandler.GetNext | list_handler.go:81-92 | the scan answers with the lookup of the first OID of the slice in the range |
| Sessions.ErrorOr | session.go:420-426 | a handler's own error code is used unless it is none, and the result is never no error |
| Sessions.ReplyEchoes | session.go:233-389 | every request but CleanupSet is answered, with a Response under the ids of the request |
| Sessions.RangesFirstFailure | session.go:256-301 | a Get or GetNext has one binding per range in its position, or the error and index of the first failing range, no bindings, and no handler call after it |
| Sessions.TestSetFirstFailure | session.go:303-343 | a TestSet reports the first failing binding likewise, makes no call after it, and carries no bindings |
| SessionAnswers.GetIsAnswered | session.go:256-277 | a Get asks for the OID each range starts with, binds what the handler names or noSuchObject, 128, and reports the first failure with its code or 5 |
| SessionAnswers.GetNextIsAnswered | session.go:279-301 | a GetNext asks with both ends and the include field of each range, and binds what the handler names or endOfMibView, 130 |
| SessionAnswers.TestSetIsAnswered | session.go:303-343 | a TestSet goes to TestSet of a two-phase handler and to Set of any other up to the first binding rejected, and is remembered if none is, by a two-phase session only |
| SessionAnswers.TestSetIsRefused | session.go:304-308 | without a handler a TestSet is answered with notWritable, 17 |
| SessionAnswers.OthersAreRefused | session.go:383-386 | any other PDU is answered with 5 if its type is from 5 to 11, and with 268 if not |
| Sessions.Session.AnswerRanges | session.go:256-301 | the loop over the ranges gives the reply and handler calls specified |
| Sessions.Session.TestBindings | session.go:315-343 | the loop over the bindings gives the reply and calls specified, and the bindings if all were accepted |
| Sessions.Session.AnswerTestSet | session.go:303-343 | only a two-phase session remembers, and only a fully accepted set, over any earlier one; a failed one leaves the earlier in place |
| Sessions.Session.TakePending | session.go:395-404 | the bindings remembered for the transaction, which are forgotten only when asked |
| Sessions.Session.AnswerSecondPhase | session.go:345-375 | commit and undo call the handler once with the remembered bindings, or not at all without any, and forget nothing |
| Sessions.Session.HandleRequest | session.go:233-389 | reply, handler calls and remembered bindings are those specified for each kind of packet |
| SetTransactions.RememberedIsCurrent | session.go:303-404 | after any run, what is remembered for a transaction is its most recent fully accepted TestSet with no CleanupSet since, and nothing if there is none |
| SetTransactions.SecondPhaseCalls | session.go:345-375 | in any interleaving, a CommitSet or UndoSet calls the handler with exactly those bindings in order, and not at all when there are none |
| SetTransactions.SecondPhaseAnswers | session.go:345-375 | a CommitSet or UndoSet is answered with 14 or 15 when the handler was called and rejected it, and with no error otherwise |
| SetTransactions.OnlySecondPhaseCommits | session.go:345-375 | no other request, and no other kind of handler, gets a commit or undo call |
| SetTransactions.TransactionsIndependent | session.go:303-404 | the replies and calls of a transaction in any run equal those of the run with all other transactions left out |
| Correlation.Correlated | client.go:564-618 | in every run each call is sent at most one response and each response reaches at most one call; what a call returns is that response with its own packet id; a returned call has no pending entry; and the dispatcher's send never blocks |
| CallOutcomes.OutcomeIsWhatHappened | client.go:609-617 | in every run a call returns its answer exactly when it received one, a timeout exactly when that fired, that the client is closed exactly when it noticed a close that took place, and an encoding failure exactly when there was one |
| CallOutcomes.DeliveredStays | client.go:526-539 | nothing sent to a call is lost: it is on its channel or is its answer |
| CallOutcomes.UndecidedWaits | client.go:604-617 | until it is decided a call that handed over its request waits, and can receive what was sent to it |
| Correlation.ArrivalRouting | client.go:526-539 | a response is taken exactly when a call between registering and returning expects one under its id, and for that call; any other changes nothing |
| Correlation.ReturnedStays | client.go:609-617 | what a call returned never changes |
| Correlation.RunKeeps | client.go:564-618 | every interleaving of issuing, encoding failure, timeout, close and dispatch keeps ids, pending entries, deliveries and answers consistent |
| Correlation.WindowNeeded | client.go:586-601 | were a call still waiting after 2^32 later ones, the next would get its id and take its entry, so that no response reached it |
| Correlation.WindowFills | client.go:586-601 | a run does come to where a call waits and 2^32 have been issued |
| Routing.TableIsConsistent | client.go:211-237 | in every interleaving of opens, closes and overlapping reopens each entry is a session under its current id, with one entry at most, in one work list at most and never both |
| Routing.OpenedIsRouted | client.go:211-225 | a session that was opened is routed under the id it was given, and nothing else changes |
| Routing.RegistrationIsRemembered | session.go:120-156 | a session has a registration to replay exactly when it registered and has not unregistered since |
| Reopens.UndisturbedReopen | client.go:375-401 | a reopen by itself goes through every session; the table ends with none but those that reopened, all of them under their new ids exactly when these differ |
| Reopens.ReopenedAsAnswered | session.go:196-224 | and a session reopens, under the id it was opened with, exactly when the master agent opened it and took its registration if it has one; any other is lost, with the id zero unless it was opened |
| Routing.ClosedForGood | session.go:159-171 | in every run of an open client, after a finished close no entry of the table ever leads to the session again exactly when, at the removal, the session is in no work list and, if it is routed, still has the id that was read |
| Routing.ClosedSessionComesBack | session.go:159-171 | a run in which a session closed while a reopen had it in its work list is routed again |
| Routing.CloseRemoves | session.go:159-171 | in every run, removing the entry of a session being closed stops routing to exactly the session that has, by then, the id that was read |
| Routing.ClosingReads | session.go:159-171 | what a close removes is the entry of the id the session had when it was read |
| Routing.PromptClose | session.go:159-171 | a close that nothing comes between takes the session's own entry off the table and no other |
| Routing.CloseMayHitAnother | session.go:159-171 | a run in which that is another session: the first did not reopen and its id was given to the second |
| Routing.RunKeeps | session.go:196-224 | every step, from clearing an id to routing it again, keeps table and work lists consistent |
| Clients.TableHoldsLast | client.go:385-396 | the rebuilt table holds, for every id, the last session that reopened with it |
| Clients.RoutedIffDistinct | client.go:375-401 | every reopened session is routed exactly when the new ids differ, and nothing else is |
| Clients.CountIsOfReopened | client.go:385-400 | the count is of the sessions that reopened |
| Clients.Session.Reopen | session.go:196-224 | the id is cleared and then the one assigned; success needs the open and, if there is a registration, its replay |
| Clients.Client.AllocateID | client.go:586-587 | ids count up and wrap at 2^32 |
| Clients.Client.Issue | client.go:582-587 | the new packet id is that of no call still open, within the window assumed |
| Clients.Client.Register | client.go:598-600 | registering a channel takes over nobody's entry and keeps requests and responses correlated |
| Clients.Client.Finish | client.go:601 | the deferred removal leaves the call without entry and every other call with its own |
| Clients.Client.Dispatch | client.go:526-539 | the dispatcher gets the channel, still empty, of the one call that expects a response under the id, or none if no call does |
| Clients.Client.RegisterSession | client.go:221-225 | the session is filed under its current id, the table staying consistent |
| Clients.Client.UnregisterSession | client.go:227-231 | the entry is removed, the table staying consistent |
| Clients.Client.ReopenSessions | client.go:375-401 | one failing session does not keep the others from coming back; every entry is a session that the master agent opened under that id and whose registration, if any, it took; all such are routed exactly when the new ids differ |
| ErrorChannel.NoSendAfterCloseEver | client.go:118-135 | with any number of reports and closes the channel is closed at most once, nothing is sent after that, at most ten reports are buffered, and they are received in the order sent |
| ErrorChannel.ReportIsSent | client.go:168-179 | a report that has returned tried to send exactly when it found the channel not marked closed, and was sent exactly when it then found fewer than ten buffered |
| ErrorChannel.MarkedByClose | client.go:121-126 | the channel is marked closed exactly when a close has come to that |
| ErrorChannel.NoDeadlock | client.go:168-179 | until every report and close has returned one of them can go on, even if nobody reads the channel |
| ErrorChannel.RunKeeps | client.go:118-179 | every step keeps lock, once, flag and channel consistent |
| Engine.FrameEchoes | client.go:244-257 | whatever a reply holds, the frame sent is a Response with the request's session, transaction and packet ids |
| Engine.FrameSays | client.go:244-257 | a reply that encodes goes out as just that encoding, and is read back in normal form if it is not too long; one that does not goes out as genErr, 5 |
| Engine.ErrorFrameSays | client.go:501-509 | an error response is read back as that error |
| Engine.ErrorsEncode | client.go:501-509 | the error responses the library builds always encode |
| Engine.FallbackIsGenErr | client.go:244-257 | a reply that cannot be encoded goes out as a frame that reads as a genErr response under the same ids |
| EngineInvariant.StepKeeps | client.go:518-562 | every step keeps order, places, fates, frames and histories consistent |
| EngineOrigins.StepKeepsSound | client.go:286-335 | every step also keeps the PDUs of each connection those of its octets, and each answer tied to what the dispatcher found |
| EngineRuns.AtMostOneAnswer | client.go:299-311 | in every run a PDU has at most one response frame, which echoes its ids; it reads as parseError, 266, from the receiver exactly when the PDU did not parse, as notOpen, 257, from the dispatcher exactly when that found no session, and as the reply that the session's history determines exactly when that session was found; CleanupSet and Response PDUs have none |
| EngineRuns.DispatchDecides | client.go:541-558 | a PDU is answered by the session that the table held under its session id at the moment of its dispatch, or with notOpen if there was none |
| EngineRuns.ConnectionsAreRead | client.go:286-335 | in every run the PDUs of a connection are a prefix of what the frame reader finds in its octets, and all of it once the connection was replaced or has no more frame |
| EngineRuns.ExactlyOneAnswer | client.go:493-562 | once the queues have drained with the client open, every other PDU has exactly one, unless it was left to a session since closed |
| EngineRuns.SessionOrder | session.go:82-103 | handled, in hand and queued requests of a session are those accepted for it in arrival order, at most 16 queued, and its responses are submitted in that order |
| EngineRuns.AcceptsSixteen | session.go:97-103 | a PDU routed to a session can be accepted exactly when fewer than 16 are queued |
| EngineRuns.SessionHistory | session.go:82-95 | in every run what a session remembers, and what the frames it sent read as, is what the history of its requests determines |
| EngineRuns.WorkIsBounded | client.go:269-335 | in every run the client's threads, transmitter included, take at most eight steps per PDU received and one per request of the client's own |
| EngineRuns.Drains | client.go:269-335 | whatever handlers are going to answer, every run can go on by the client's own threads until all is quiet |
| EngineRuns.EveryContinuationDrains | client.go:269-335 | however a run goes on by the client's own threads and whatever handlers answer, it takes no more steps than remain, and where it cannot go on all is quiet |
| EngineRuns.EveryRequestIsAnswered | client.go:493-562 | with client and sessions open, however a run goes on by the client's own threads, where it cannot go on every frame in the octets of every connection was read, and each PDU that expects a response has exactly one and every other none |
| EngineRuns.AlwaysProgress | client.go:541-558 | until all is quiet some thread can go on, even when the dispatcher waits on a full queue or all wait on the transmitter |
| EngineClosing.OnlyWhatWasThere | session.go:82-103 | while no entry of the table leads to a session, closed or not, its handler gets, in order, only the PDU in hand, those queued, at most 16, and the one at its door when the last entry went |
| EngineClosing.ClosedSessionMayHandle | session.go:82-103 | for any request, a run in which a session that is closed and has no entry handles it, since it had been looked up before |

## Where code and documentation differ

- `Session.Close` means to end the routing of traffic to the session's handler. It reads the
  session's id and removes the entry in two steps, and neither a reopen nor the table looks at
  whether a session is closed. No entry of the table leads to the session again exactly when, at the
  removal, no reopen has it in its work list and, if it is routed, it still has the id that was read
  (`Routing.ClosedForGood`). Otherwise a reopen may route the closed session again
  (`Routing.ClosedSessionComesBack`), or the entry removed is that of another session
  (`Routing.CloseMayHitAnother`). The table stays consistent all the same. Even with no entry left,
  a PDU that was looked up or queued before may still be handled
  (`EngineClosing.ClosedSessionMayHandle`), but no other (`EngineClosing.OnlyWhatWasThere`).
- The comment in the octet string decoder says that the addition after the length check cannot wrap.
  It is a 32-bit addition and does for the last four lengths (`OctetStrings.WrapExample`), which no
  payload the frame reader accepts is long enough for (`Framing.ReaderNeverPanics`).

## Left out

- Sockets, dialling, buffering and the wait between reconnects: a connection is a sequence of octets, a disconnect is the end of one.
- Timers: a timeout may happen at any moment. Logging, dial options and names of constants.
- Correlation.Correlated: assumes that no call stays open while 2^32 later ones are issued; `Correlation.WindowNeeded` and `Correlation.WindowFills` show what happens otherwise.
- Engine: delivery of a Response PDU to the caller is one step here, and is followed in detail in `Correlation`; changes of the routing table are arbitrary here, and are followed in `Routing`.
- Engine: what the client's own requests hold; here they only keep the transmitter busy.
- Engine: whether the transmitter's write of a frame it was handed succeeds; it is taken to return at some time.
- Bodies of user handlers other than the list handler: a handler is an arbitrary answer to each call it gets, and it is taken to return at some time. Context values passed to handlers.
- Register, Unregister, SendTrap and Close of a session, beyond their effect on the routing table: one request and one error check each. Decoders of the PDUs only a master agent reads.
- Index allocation, GetBulk, Ping, agent capabilities and non-default contexts, which the library does not implement: all are cases of an unsupported packet.
- Texts of errors: an error is a failure without further content, except for AgentX error codes.
- ListHandlers.ListHandler.Add: a text that does not parse panics in the code and gives no item here; changing an item through the pointer returned is the Set operation; each call is one step, as it is under the handler's lock.
- Routing: closing the client, after which a session waiting in a work list cannot come back; `Routing.ClosedForGood` is about a client that stays open.
- Go's sort and number parsing are replaced by functions defined here with the same results.
- Panics: a decoder that panics gives a failure here, and the `Panics` predicates say when it does.
