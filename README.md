# bigbone core, modelled in Dafny

This project models the core of bigbone, a Kotlin client library for the Mastodon API, and proves properties of that model.

- **Request building.** The method classes (`AccountMethods`, `SearchMethods`, `OAuthMethods`, `AppMethods`, `ReportMethods` and the older `Apps`) turn their arguments into request descriptors. A descriptor holds an endpoint, a verb and an ordered list of parameter entries. Each builder appends to a fresh `Parameters` object, so the model keeps it as a class whose `entries` sequence the methods update. Every builder method is proved equal to a specification function that writes its entries out. Lemmas then show key order, when each optional entry is present, and the value each key finds.
- **`MastodonClient`.** The client builds the full URL and the form body, dispatches a descriptor to its verb method, and adds the access token in its interceptor. It turns network and argument exceptions into `BigBoneRequestException`, and `performAction` closes the response. Its `Builder` asks the instance for its version, API v2 first and then v1.
- **Transport.** OkHttp is reduced to an `HttpClient` class. Its server is a fixed function from request to reply or exception. The client logs every request it sends and every response it hands out, so the proofs can state which requests were sent, in which order, and that responses were closed.
- **`NodeInfoClient`.** Server discovery takes two requests, preferring the schema 2.0 link, and closes each response.
- **`SemanticVersion`.** A version string is split on `.`, `-` and `+`, read as major, minor and patch, and versions compare lexicographically on those three numbers.
- **Serializers and entities.** `JsonSerializer` holds the `Dimension` and date-time serializers. `Dimension` and `MutedAccount.toAccount` are modelled as data.
- **Exceptions.** Both exception families are modelled.

Kotlin's `split`, `joinToString`, `toIntOrNull` (32-bit), `Int.toString` and `isBlank` are written out in `text.dfy`. Several lemmas rest on them: splitting a join gives the parts back, and parsing a rendered Int gives the Int back.

`Parameters.kt`, `Scope.kt`, `Range.kt` and OkHttp are not part of this model's sources. `ParameterLists` models `Parameters` as an ordered list of key/value entries that `append` extends. A `Scope` is represented by its rendered text and the exception its `validate()` would throw, if any. A `Range` is represented by the entries its `toParameters()` produces.

## Model

| member | source | states |
|---|---|---|
| SemanticVersions.SemanticVersion.Major | bigbone/src/main/kotlin/social/bigbone/SemanticVersion.kt:29 | the major number is the first piece read as a 32-bit Int, and -1 exactly when that piece is missing or not an integer |
| SemanticVersions.SemanticVersion.Minor | bigbone/src/main/kotlin/social/bigbone/SemanticVersion.kt:30 | the minor number is the second piece read as an Int, 0 when it is missing or not an integer; never negative |
| SemanticVersions.SemanticVersion.Patch | bigbone/src/main/kotlin/social/bigbone/SemanticVersion.kt:31 | the patch number is the third piece read as an Int, 0 when it is missing or not an integer; never negative |
| SemanticVersions.NonNegativePiece | bigbone/src/main/kotlin/social/bigbone/SemanticVersion.kt:28-29 | a piece of a version split on '.', '-' and '+' never reads as a negative number, so -1 only ever means 'not read' |
| SemanticVersions.SemanticVersion.CompareTo | bigbone/src/main/kotlin/social/bigbone/SemanticVersion.kt:45-50 | the comparison is -1, 0 or 1; it is 0 exactly for equal (major, minor, patch) triples and its sign follows their lexicographic order |
| SemanticVersions.SemanticVersion.Valid | bigbone/src/main/kotlin/social/bigbone/SemanticVersion.kt:37-38 | a version is valid exactly when its first piece reads as an integer |
| SemanticVersions.SemanticVersion.ToString | bigbone/src/main/kotlin/social/bigbone/SemanticVersion.kt:55 | for a valid version the printed text splits at its delimiters into exactly the printed major, minor and patch numbers |
| SemanticVersions.ReadsPieces | bigbone/src/main/kotlin/social/bigbone/SemanticVersion.kt:28-31 | a string of three delimiter-free pieces and any delimited tail reads its numbers from exactly those three pieces |
| SemanticVersions.DigitsKey | bigbone/src/main/kotlin/social/bigbone/SemanticVersion.kt:28-31 | three runs of digits that fit in an Int read back as (major, minor, patch), whatever follows a further delimiter |
| SemanticVersions.ParsesRelease | bigbone/src/test/kotlin/social/bigbone/SemanticVersionTest.kt:10-18 | "4.3.8" reads as 4.3.8 and is valid |
| SemanticVersions.ParsesNightly | bigbone/src/test/kotlin/social/bigbone/SemanticVersionTest.kt:11-23 | "4.4.0-nightly.2025-05-24" reads as 4.4.0 and is valid |
| SemanticVersions.ParsesForkSuffix | bigbone/src/test/kotlin/social/bigbone/SemanticVersionTest.kt:12-28 | "3.5.19-qoto" reads as 3.5.19 and is valid |
| SemanticVersions.RejectsLeadingV | bigbone/src/test/kotlin/social/bigbone/SemanticVersionTest.kt:34-38 | "v1.2.3" is invalid |
| SemanticVersions.RejectsWord | bigbone/src/test/kotlin/social/bigbone/SemanticVersionTest.kt:35-39 | "foobar" is invalid |
| SemanticVersions.RejectsOverflowingMajor | bigbone/src/main/kotlin/social/bigbone/SemanticVersion.kt:29 | a major number beyond 32 bits is not an Int, so "99999999999.0.0" is invalid |
| SemanticVersions.Overflows | bigbone/src/main/kotlin/social/bigbone/SemanticVersion.kt:29 | eleven or more digits without a leading zero never parse as an Int |
| SemanticVersions.SuffixIgnored | bigbone/src/main/kotlin/social/bigbone/SemanticVersion.kt:28-31 | anything after the third piece changes neither the numbers nor the comparison |
| SemanticVersions.SuffixExample | bigbone/src/main/kotlin/social/bigbone/SemanticVersion.kt:45-50 | "4.3.8-x" compares equal to "4.3.8" |
| SemanticVersions.CompareIsTotalPreorder | bigbone/src/main/kotlin/social/bigbone/SemanticVersion.kt:45-50 | the order is reflexive, antisymmetric in sign, total and transitive, also across > and >= |
| SemanticVersions.InvalidBelowValid | bigbone/src/main/kotlin/social/bigbone/SemanticVersion.kt:37-50 | an invalid version (major -1) sorts below every valid one |
| SemanticVersions.MajorDecidesOrder | bigbone/src/test/kotlin/social/bigbone/SemanticVersionTest.kt:51-58 | 4.0.0 > 1.3.0 and not the reverse |
| SemanticVersions.MinorDecidesOrder | bigbone/src/test/kotlin/social/bigbone/SemanticVersionTest.kt:52-57 | 1.3.0 > 1.2.4 and not the reverse |
| SemanticVersions.PatchDecidesOrder | bigbone/src/test/kotlin/social/bigbone/SemanticVersionTest.kt:53-56 | 1.2.4 > 1.2.3 and not the reverse |
| SemanticVersions.SelfComparison | bigbone/src/test/kotlin/social/bigbone/SemanticVersionTest.kt:61-64 | 1.2.3 > 1.2.3 is false while 1.2.3 >= 1.2.3 holds |
| SemanticVersions.OneDigitKey | bigbone/src/main/kotlin/social/bigbone/SemanticVersion.kt:28-31 | three one-digit numbers joined by dots read as those numbers |
| SemanticVersions.ToStringRoundTrip | bigbone/src/main/kotlin/social/bigbone/SemanticVersion.kt:55 | re-reading what toString prints for a valid version gives the same numbers and a valid version |
| SemanticVersions.InvalidToStringShifts | bigbone/src/main/kotlin/social/bigbone/SemanticVersion.kt:55 | an invalid version prints as "-1.<minor>.<patch>", which re-reads as (-1, 1, old minor): the printed form does not round-trip |
| Dimensions.Dimension.ToString | bigbone/src/main/kotlin/social/bigbone/Dimension.kt:13 | the text is the width, 'x', the height: splitting it on 'x' gives exactly the two rendered numbers |
| JsonSerializer.SerializeDimension | bigbone/src/main/kotlin/social/bigbone/JsonSerializer.kt:34-36 | a dimension is encoded as a JSON string whose two 'x'-separated pieces are its width and height |
| JsonSerializer.DeserializeDimension | bigbone/src/main/kotlin/social/bigbone/JsonSerializer.kt:38-60 | decoding succeeds exactly for two 'x'-separated Ints both greater than 0; a wrong piece count fails with the format message, and every failure is an IllegalArgumentException with a message |
| JsonSerializer.ToInt | bigbone/src/main/kotlin/social/bigbone/JsonSerializer.kt:47-48 | toInt succeeds exactly where toIntOrNull gives a value, and otherwise throws the NumberFormatException for that text |
| JsonSerializer.DimensionRoundTrip | bigbone/src/main/kotlin/social/bigbone/JsonSerializer.kt:34-60 | decoding an encoded dimension with positive sides gives it back |
| JsonSerializer.NonPositiveRejected | bigbone/src/main/kotlin/social/bigbone/JsonSerializer.kt:50-51 | an encoded dimension with a side of 0 or less is rejected with the width or height message |
| JsonSerializer.DecodesExample | bigbone/src/test/kotlin/social/bigbone/DimensionSerializerTest.kt:12-17 | "800x600" decodes to 800 by 600 |
| JsonSerializer.TooManySeparators | bigbone/src/test/kotlin/social/bigbone/DimensionSerializerTest.kt:74-80 | "800x600x400" fails with the format message |
| JsonSerializer.MissingSeparator | bigbone/src/test/kotlin/social/bigbone/DimensionSerializerTest.kt:41-47 | "800600" fails with the format message |
| JsonSerializer.NegativeWidth | bigbone/src/test/kotlin/social/bigbone/DimensionSerializerTest.kt:84-90 | "-800x600" fails with "Width must be greater than 0, but was -800" |
| JsonSerializer.ValuesError | bigbone/src/main/kotlin/social/bigbone/JsonSerializer.kt:54-58 | two pieces of which one is not an Int fail with the values message and the NumberFormatException as cause |
| JsonSerializer.NonIntegerWidth | bigbone/src/test/kotlin/social/bigbone/DimensionSerializerTest.kt:52-58 | "abcx600" fails with the values message |
| JsonSerializer.NonIntegerHeight | bigbone/src/test/kotlin/social/bigbone/DimensionSerializerTest.kt:63-69 | "800xabc" fails with the values message |
| JsonSerializer.SerializeDateTime | bigbone/src/main/kotlin/social/bigbone/JsonSerializer.kt:78-84 | an invalid or unavailable date is encoded as null, any other as its own JSON text |
| JsonSerializer.DeserializeDateTime | bigbone/src/main/kotlin/social/bigbone/JsonSerializer.kt:86-98 | an exact time is tried first, then the start of a day in UTC; when both parsers fail with parse errors the result is Invalid with the second error; any other exception escapes, and Unavailable is never produced |
| JsonSerializer.DateTimeNeverThrows | bigbone/src/main/kotlin/social/bigbone/JsonSerializer.kt:86-98 | when the parsers only fail with parse errors, decoding never throws, and the result encodes to null exactly when neither parser accepted the text |
| InstantiationExceptions.ComposeMessage | bigbone/src/main/kotlin/social/bigbone/api/exception/BigBoneClientInstantiationException.kt:23-25 | the message is the prefix (empty when null) followed by the response's status message |
| InstantiationExceptions.CauseMessage | bigbone/src/main/kotlin/social/bigbone/api/exception/BigBoneClientInstantiationException.kt:14 | an exception built from a cause alone takes the cause's toString as message, and has none without a cause |
| InstantiationExceptions.Plain | bigbone/src/main/kotlin/social/bigbone/api/exception/BigBoneClientInstantiationException.kt:11 | no message and no cause |
| InstantiationExceptions.WithMessage | bigbone/src/main/kotlin/social/bigbone/api/exception/BigBoneClientInstantiationException.kt:12 | the given message and no cause |
| InstantiationExceptions.WithMessageAndCause | bigbone/src/main/kotlin/social/bigbone/api/exception/BigBoneClientInstantiationException.kt:13 | the given message and cause |
| InstantiationExceptions.WithCause | bigbone/src/main/kotlin/social/bigbone/api/exception/BigBoneClientInstantiationException.kt:14 | the given cause; a message exactly when there is a cause |
| InstantiationExceptions.ServerInfoRetrievalFromCause | bigbone/src/main/kotlin/social/bigbone/api/exception/BigBoneClientInstantiationException.kt:21 | a ServerInfoRetrievalException with the given cause, and a message exactly when there is one |
| InstantiationExceptions.ServerInfoRetrievalWithMessage | bigbone/src/main/kotlin/social/bigbone/api/exception/BigBoneClientInstantiationException.kt:22 | a ServerInfoRetrievalException with the message and cause given |
| InstantiationExceptions.ServerInfoRetrievalFromResponse | bigbone/src/main/kotlin/social/bigbone/api/exception/BigBoneClientInstantiationException.kt:23-25 | a ServerInfoRetrievalException without cause whose message is the prefix then the status message |
| InstantiationExceptions.ServerInfoUrlRetrievalFromResponse | bigbone/src/main/kotlin/social/bigbone/api/exception/BigBoneClientInstantiationException.kt:31-34 | a ServerInfoUrlRetrievalException without cause whose message is the prefix then the status message |
| InstantiationExceptions.UnsupportedServerException | bigbone/src/main/kotlin/social/bigbone/api/exception/BigBoneClientInstantiationException.kt:39-40 | an UnsupportedServerException with the message and cause given |
| InstantiationExceptions.InstanceRetrievalException | bigbone/src/main/kotlin/social/bigbone/api/exception/BigBoneClientInstantiationException.kt:45-46 | an InstanceRetrievalException with the message and cause given |
| InstantiationExceptions.OnlyStatusMessageKept | bigbone/src/main/kotlin/social/bigbone/api/exception/BigBoneClientInstantiationException.kt:23-34 | the response-based exceptions depend on the response only through its status message |
| InstantiationExceptions.DiscoveryFailuresDistinct | bigbone/src/main/kotlin/social/bigbone/api/exception/BigBoneClientInstantiationException.kt:20-34 | the two discovery failures built from one response carry the same message, are both instantiation exceptions, and neither is the other kind |
| RequestExceptions.FromResponse | bigbone/src/main/kotlin/social/bigbone/api/exception/BigBoneRequestException.kt:8-10 | the response's status message, the response itself, no cause |
| RequestExceptions.FromException | bigbone/src/main/kotlin/social/bigbone/api/exception/BigBoneRequestException.kt:12-14 | the cause is the exception, the message its toString, no response |
| RequestExceptions.FromMessage | bigbone/src/main/kotlin/social/bigbone/api/exception/BigBoneRequestException.kt:16-18 | the message only: no cause, no response |
| RequestExceptions.FromMessageAndCause | bigbone/src/main/kotlin/social/bigbone/api/exception/BigBoneRequestException.kt:20-22 | the message and the cause, no response |
| RequestExceptions.ResponseOnlyFromResponseConstructor | bigbone/src/main/kotlin/social/bigbone/api/exception/BigBoneRequestException.kt:5-23 | only the response constructor keeps a response, and then the message is its status message and there is no cause |
| RequestExceptions.CauseKept | bigbone/src/main/kotlin/social/bigbone/api/exception/BigBoneRequestException.kt:5-23 | an exception has a cause exactly when built from one, and then it is that cause |
| NodeInfo.WellKnownUrl | bigbone/src/main/kotlin/social/bigbone/nodeinfo/NodeInfoClient.kt:59 | the well-known URL is scheme, "://", host, ":", the port in decimal (reading back as the same port) and "/.well-known/nodeinfo" |
| NodeInfo.FirstWithRel | bigbone/src/main/kotlin/social/bigbone/nodeinfo/NodeInfoClient.kt:79-81 | the first link with the relation, and no earlier one has it; none when no link has it |
| NodeInfo.SelectLink | bigbone/src/main/kotlin/social/bigbone/nodeinfo/NodeInfoClient.kt:78-82 | the chosen href is one of the links': the first schema-2.0 link when there is one, otherwise the first link |
| NodeInfo.GetServerInfoUrl | bigbone/src/main/kotlin/social/bigbone/nodeinfo/NodeInfoClient.kt:56-84 | exactly one request to the well-known location; the outcome is the one the server's answer determines (unsuccessful or empty answers give ServerInfoUrlRetrievalException); every response received is closed |
| NodeInfo.RetrieveServerInfo | bigbone/src/main/kotlin/social/bigbone/nodeinfo/NodeInfoClient.kt:32-45 | the second request is made only after the first step produced a URL, a failed first step is the call's failure, an unsuccessful second answer gives ServerInfoRetrievalException, and every response is closed |
| NodeInfo.UrlOutcome | bigbone/src/main/kotlin/social/bigbone/nodeinfo/NodeInfoClient.kt:63-82 | a URL exactly when the answer is successful and decodes to a document with links, and then the link SelectLink picks; transport and decoder exceptions escape unchanged; every other failure is ServerInfoUrlRetrievalException from the response, "unsuccessful" or "empty link list" as the answer was unsuccessful or not |
| NodeInfo.InfoOutcome | bigbone/src/main/kotlin/social/bigbone/nodeinfo/NodeInfoClient.kt:36-43 | the decoded server exactly when the answer is successful and decodes; transport and decoder exceptions escape unchanged; otherwise ServerInfoRetrievalException from the unsuccessful response |
| NodeInfo.DefaultWellKnownUrl | bigbone/src/main/kotlin/social/bigbone/nodeinfo/NodeInfoClient.kt:32 | the defaults address "https://<host>:443/.well-known/nodeinfo" |
| NodeInfo.UnsuccessfulStepsDistinct | bigbone/src/main/kotlin/social/bigbone/nodeinfo/NodeInfoClient.kt:36-40 | an unsuccessful answer fails the URL step and the information step with different exception kinds and their own prefixes |
| NodeInfo.UrlFromDocument | bigbone/src/main/kotlin/social/bigbone/nodeinfo/NodeInfoClient.kt:63-82 | a successful first step means a successful answer whose body decoded to a document, and the URL is the href of one of its links |
| Client.FullUrl | bigbone/src/main/kotlin/social/bigbone/MastodonClient.kt:387-396 | always HTTPS on the instance, the endpoint as path, and a query exactly when parameters are given |
| Client.ParameterBody | bigbone/src/main/kotlin/social/bigbone/MastodonClient.kt:402-407 | no parameters give the empty body, parameters a form body of those entries |
| Client.Authorize | bigbone/src/main/kotlin/social/bigbone/MastodonClient.kt:497-512 | with a token the request gains "Authorization: Bearer <token>", without one it is unchanged; verb, URL and body never change |
| Client.ParametersPlacement | bigbone/src/main/kotlin/social/bigbone/MastodonClient.kt:184-200 | DELETE drops the parameters, GET sends them as query, PATCH and POST as a form body; a PATCH without parameters sends nothing |
| Client.Dispatch | bigbone/src/main/kotlin/social/bigbone/MastodonClient.kt:191-196 | each verb runs its own verb method on the endpoint: GET receives the parameters as query, PATCH as its body, POST as a parameter body, DELETE none |
| Client.CallRequest | bigbone/src/main/kotlin/social/bigbone/MastodonClient.kt:275-369 | only a PATCH without parameters builds no request; every request is unauthenticated, has the call's verb and goes to the call's path (with the query for GET); DELETE sends the empty body, GET none |
| Client.Wrap | bigbone/src/main/kotlin/social/bigbone/MastodonClient.kt:364-368 | an exception escapes unchanged exactly when it is not an IOException and not an IllegalArgumentException inside a POST; otherwise it becomes the cause of a request exception without response, whose message outside POST is the network-IO message |
| Client.IllegalArgumentOnlyWrappedByPost | bigbone/src/main/kotlin/social/bigbone/MastodonClient.kt:353-369 | only postRequestBody turns an IllegalArgumentException into a request exception built from it |
| Client.GetMastodonRequest | bigbone/src/main/kotlin/social/bigbone/MastodonClient.kt:184-200 | a single-entity descriptor with the endpoint, verb and parameters given |
| Client.GetPageableMastodonRequest | bigbone/src/main/kotlin/social/bigbone/MastodonClient.kt:209-225 | a page descriptor with the endpoint, verb and parameters given |
| Client.GetMastodonRequestForList | bigbone/src/main/kotlin/social/bigbone/MastodonClient.kt:234-250 | a list descriptor with the endpoint, verb and parameters given |
| Client.MastodonClient.NewCall | bigbone/src/main/kotlin/social/bigbone/MastodonClient.kt:497-512 | the server receives the request with the token added; its answer or exception is what the call returns |
| Client.MastodonClient.Delete | bigbone/src/main/kotlin/social/bigbone/MastodonClient.kt:275-289 | one DELETE with OkHttp's empty body; an IOException becomes a request exception; a response comes back open |
| Client.MastodonClient.Get | bigbone/src/main/kotlin/social/bigbone/MastodonClient.kt:296-310 | one GET with the parameters as query; an IOException becomes a request exception |
| Client.MastodonClient.Patch | bigbone/src/main/kotlin/social/bigbone/MastodonClient.kt:317-335 | a null body is refused before any request is sent; otherwise one PATCH with the form body |
| Client.MastodonClient.Post | bigbone/src/main/kotlin/social/bigbone/MastodonClient.kt:342-343 | post is postRequestBody with the parameter body |
| Client.MastodonClient.PostRequestBody | bigbone/src/main/kotlin/social/bigbone/MastodonClient.kt:353-369 | one POST with the body; IllegalArgumentException and IOException become request exceptions |
| Client.MastodonClient.Execute | bigbone/src/main/kotlin/social/bigbone/MastodonClient.kt:184-200 | running a descriptor dispatches on its verb to exactly one verb method |
| Client.MastodonClient.PerformAction | bigbone/src/main/kotlin/social/bigbone/MastodonClient.kt:258-269 | the response is closed, and the action fails exactly when it is unsuccessful, with an exception carrying that response |
| Client.VersionSegment | bigbone/src/main/kotlin/social/bigbone/MastodonClient.kt:465-483 | version 2 asks API v2, every other number API v1 |
| Client.PrefersV2 | bigbone/src/main/kotlin/social/bigbone/MastodonClient.kt:434-445 | a successful v2 answer decides the version and the v1 answer is never decoded |
| Client.FallsBackToV1 | bigbone/src/main/kotlin/social/bigbone/MastodonClient.kt:434-445 | with an unsuccessful v2 answer a successful v1 answer is used |
| Client.VersionFailureMessage | bigbone/src/main/kotlin/social/bigbone/MastodonClient.kt:434-445 | every failure is "Unable to fetch instance version" with a cause and no response |
| Client.VersionFound | bigbone/src/main/kotlin/social/bigbone/MastodonClient.kt:434-445 | a version is found exactly when both requests went through, some answer is successful and the first successful body decodes |
| Client.DecodeVersion | bigbone/src/main/kotlin/social/bigbone/MastodonClient.kt:438-443 | the decoded version when the body decodes; otherwise "Unable to fetch instance version" with the decoding exception as cause |
| Client.InstanceVersionOutcome | bigbone/src/main/kotlin/social/bigbone/MastodonClient.kt:434-445 | a version found means both requests went through and it is what the first successful body (v2 before v1) decodes to |
| Client.MastodonClient.constructor | bigbone/src/main/kotlin/social/bigbone/MastodonClient.kt:40-46 | a client holds its instance name, transport, token and timeout, without debug output or known version |
| Client.Builder.constructor | bigbone/src/main/kotlin/social/bigbone/MastodonClient.kt:414-421 | a builder starts without token, debug flag or read timeout |
| Client.Builder.AccessToken | bigbone/src/main/kotlin/social/bigbone/MastodonClient.kt:422-424 | sets the token and keeps the other settings |
| Client.Builder.UseStreamingApi | bigbone/src/main/kotlin/social/bigbone/MastodonClient.kt:426-428 | sets a 60-second read timeout and keeps the other settings |
| Client.Builder.Debug | bigbone/src/main/kotlin/social/bigbone/MastodonClient.kt:430-432 | sets the debug flag and keeps the other settings |
| Client.Builder.VersionedInstanceRequest | bigbone/src/main/kotlin/social/bigbone/MastodonClient.kt:465-483 | one unauthenticated GET on the versioned instance endpoint; an unsuccessful response is closed |
| Client.Builder.GetInstanceVersion | bigbone/src/main/kotlin/social/bigbone/MastodonClient.kt:434-445 | the v2 request, then the v1 request unless the first threw, with the outcome InstanceVersionOutcome describes |
| Client.Builder.Build | bigbone/src/main/kotlin/social/bigbone/MastodonClient.kt:485-494 | a client with the collected settings and the version found, or the version exception and no client |
| SearchMethods.CoerceIn | bigbone/src/main/kotlin/social/bigbone/api/method/SearchMethods.kt:94 | the limit lands in 20..40: unchanged inside, the nearest bound outside |
| SearchMethods.SlotsUnrolled | bigbone/src/main/kotlin/social/bigbone/api/method/SearchMethods.kt:69-96 | helper lemma: unrolls the present entries over the ten optional slots, slot by slot |
| SearchMethods.SearchEntriesPresent | bigbone/src/main/kotlin/social/bigbone/api/method/SearchMethods.kt:69-96 | the written-out entries are exactly the slots whose condition holds |
| SearchMethods.BuildParameters | bigbone/src/main/kotlin/social/bigbone/api/method/SearchMethods.kt:57-97 | a fresh parameter list holding the query, the offset and each optional entry whose condition holds, in append order |
| SearchMethods.SearchContent | bigbone/src/main/kotlin/social/bigbone/api/method/SearchMethods.kt:38-55 | a GET on "api/v2/search" with those parameters |
| SearchMethods.SearchKeysDistinct | bigbone/src/main/kotlin/social/bigbone/api/method/SearchMethods.kt:69-96 | the ten keys are pairwise distinct |
| SearchMethods.SearchKeyOrder | bigbone/src/main/kotlin/social/bigbone/api/method/SearchMethods.kt:69-96 | the keys sent are a subsequence of the fixed key order |
| SearchMethods.SearchStartsWithQueryAndOffset | bigbone/src/main/kotlin/social/bigbone/api/method/SearchMethods.kt:70-71 | the entries start with the query, then the offset, which is 0 when none is given |
| SearchMethods.SearchFlagEntries | bigbone/src/main/kotlin/social/bigbone/api/method/SearchMethods.kt:72-83 | each flag is sent, as true, exactly when set; the type exactly when given, by its enum name |
| SearchMethods.SearchIdAndLimitEntries | bigbone/src/main/kotlin/social/bigbone/api/method/SearchMethods.kt:84-95 | ids are sent exactly when they hold more than blanks, the limit exactly when given, clamped into 20..40 |
| SearchMethods.BlankIdsSkipped | bigbone/src/main/kotlin/social/bigbone/api/method/SearchMethods.kt:84-92 | an id is usable exactly when given and not blank |
| SearchMethods.TypeSentByName | bigbone/src/main/kotlin/social/bigbone/api/method/SearchMethods.kt:17-21 | the enum name sent differs from the lower-case type property |
| AccountMethods.MakeProfileFieldName | bigbone/src/main/kotlin/social/bigbone/api/method/AccountMethods.kt:92-99 | a name is accepted exactly when it has at most 255 characters, otherwise the IllegalArgumentException with its message |
| AccountMethods.MakeProfileFieldValue | bigbone/src/main/kotlin/social/bigbone/api/method/AccountMethods.kt:105-112 | a value is accepted exactly when it has at most 255 characters, otherwise the IllegalArgumentException with its message |
| AccountMethods.FilledBefore | bigbone/src/main/kotlin/social/bigbone/api/method/AccountMethods.kt:131-136 | the number of filled slots before an index is at most the index |
| AccountMethods.AppendField | bigbone/src/main/kotlin/social/bigbone/api/method/AccountMethods.kt:125-137 | appends the indexed name entry then the value entry |
| AccountMethods.AppendSlot | bigbone/src/main/kotlin/social/bigbone/api/method/AccountMethods.kt:125-137 | appends a slot's two entries when it is filled, nothing otherwise |
| AccountMethods.ToParameters | bigbone/src/main/kotlin/social/bigbone/api/method/AccountMethods.kt:125-137 | returns the list it was handed, with the entries of the filled slots appended after what it held |
| AccountMethods.FieldKeysDistinct | bigbone/src/main/kotlin/social/bigbone/api/method/AccountMethods.kt:125-137 | name and value keys never collide, and the keys of different slots differ |
| AccountMethods.FilledCounts | bigbone/src/main/kotlin/social/bigbone/api/method/AccountMethods.kt:125-137 | each prefix of slots contributes two entries per filled slot |
| AccountMethods.ProfileFieldsCount | bigbone/src/main/kotlin/social/bigbone/api/method/AccountMethods.kt:125-137 | two entries per filled slot, none for an empty one |
| AccountMethods.PositionAfter | bigbone/src/main/kotlin/social/bigbone/api/method/AccountMethods.kt:125-137 | a filled slot's entries sit right after those of the filled slots before it |
| AccountMethods.ProfileFieldPosition | bigbone/src/main/kotlin/social/bigbone/api/method/AccountMethods.kt:125-137 | a filled slot is sent under its own index, right after the entries of the filled slots before it |
| AccountMethods.MandatoryEntries | bigbone/src/main/kotlin/social/bigbone/api/method/AccountMethods.kt:53-57 | the five mandatory keys in order: username, email, password, agreement, locale |
| AccountMethods.RegisterAccount | bigbone/src/main/kotlin/social/bigbone/api/method/AccountMethods.kt:41-63 | a POST on "api/v1/accounts" with the five mandatory entries, then the reason and the date of birth when given |
| AccountMethods.RegisterOrder | bigbone/src/main/kotlin/social/bigbone/api/method/AccountMethods.kt:53-61 | the mandatory entries first, the reason exactly when given, the date of birth exactly when given and always last |
| AccountMethods.RegisterOptionalLookup | bigbone/src/main/kotlin/social/bigbone/api/method/AccountMethods.kt:58-61 | looking up "reason" or "date_of_birth" finds the value given, or nothing |
| AccountMethods.AppendGiven | bigbone/src/main/kotlin/social/bigbone/api/method/AccountMethods.kt:184-199 | appends an argument's entry exactly when the argument is given |
| AccountMethods.AppendProfileTexts | bigbone/src/main/kotlin/social/bigbone/api/method/AccountMethods.kt:184-187 | appends the given profile texts in declaration order |
| AccountMethods.AppendProfileFlags | bigbone/src/main/kotlin/social/bigbone/api/method/AccountMethods.kt:189-193 | appends the given profile flags in declaration order |
| AccountMethods.AppendSource | bigbone/src/main/kotlin/social/bigbone/api/method/AccountMethods.kt:197-199 | appends the given status defaults |
| AccountMethods.AppendProfile | bigbone/src/main/kotlin/social/bigbone/api/method/AccountMethods.kt:184-193 | appends the given texts, then the given flags |
| AccountMethods.AppendProfileFields | bigbone/src/main/kotlin/social/bigbone/api/method/AccountMethods.kt:195 | appends the profile fields' entries when fields are given |
| AccountMethods.UpdateCredentials | bigbone/src/main/kotlin/social/bigbone/api/method/AccountMethods.kt:165-202 | a PATCH on "api/v1/accounts/update_credentials" whose parameters are always present |
| AccountMethods.ProfilePresent | bigbone/src/main/kotlin/social/bigbone/api/method/AccountMethods.kt:184-193 | the profile part is the present entries of the nine optional profile arguments |
| AccountMethods.CredentialsLayout | bigbone/src/main/kotlin/social/bigbone/api/method/AccountMethods.kt:184-199 | the given profile arguments, then the profile fields, then the given status defaults |
| AccountMethods.ProfileKeysDistinct | bigbone/src/main/kotlin/social/bigbone/api/method/AccountMethods.kt:184-193 | the nine profile keys are pairwise distinct |
| AccountMethods.ProfileOrder | bigbone/src/main/kotlin/social/bigbone/api/method/AccountMethods.kt:184-193 | the profile keys sent keep declaration order |
| AccountMethods.ProfileArgument | bigbone/src/main/kotlin/social/bigbone/api/method/AccountMethods.kt:184-193 | each profile key is sent exactly when its argument is given, with that value |
| AccountMethods.EmptyUpdateStillHasParameters | bigbone/src/main/kotlin/social/bigbone/api/method/AccountMethods.kt:183-200 | with every argument null the request still carries an empty parameter list |
| AccountMethods.UpdateNeverRefused | bigbone/src/main/kotlin/social/bigbone/api/method/AccountMethods.kt:165-202 | running the request always reaches the PATCH with a form body: the null-body refusal never fires |
| AccountMethods.RangeToParameters | bigbone/src/main/kotlin/social/bigbone/api/method/AccountMethods.kt:260 | a fresh list holding the range's entries |
| AccountMethods.AppendStatusFilters | bigbone/src/main/kotlin/social/bigbone/api/method/AccountMethods.kt:261-265 | appends the set flags, then the tag when it is not blank |
| AccountMethods.GetStatuses | bigbone/src/main/kotlin/social/bigbone/api/method/AccountMethods.kt:248-268 | a pageable GET on "api/v1/accounts/<id>/statuses" with the range's entries, then the filters |
| AccountMethods.StatusSlots | bigbone/src/main/kotlin/social/bigbone/api/method/AccountMethods.kt:261-265 | the filter keys in append order |
| AccountMethods.StatusFilterKeysDistinct | bigbone/src/main/kotlin/social/bigbone/api/method/AccountMethods.kt:261-265 | the five filter keys are pairwise distinct |
| AccountMethods.StatusFiltersPresent | bigbone/src/main/kotlin/social/bigbone/api/method/AccountMethods.kt:261-265 | the filter entries are the table's present entries |
| AccountMethods.StatusFilterOrder | bigbone/src/main/kotlin/social/bigbone/api/method/AccountMethods.kt:261-265 | the filters come in the order only_media, pinned, exclude_replies, exclude_reblogs, tagged |
| AccountMethods.StatusFilterValues | bigbone/src/main/kotlin/social/bigbone/api/method/AccountMethods.kt:261-265 | each flag is sent, as true, exactly when set, and the tag exactly when not blank |
| AccountMethods.FollowAccount | bigbone/src/main/kotlin/social/bigbone/api/method/AccountMethods.kt:312-327 | a POST on "api/v1/accounts/<id>/follow" with the given options |
| AccountMethods.FollowOptions | bigbone/src/main/kotlin/social/bigbone/api/method/AccountMethods.kt:322-324 | reblogs and notify carry the given value exactly when given; languages is one list entry, sent exactly for a non-empty list |
| AccountMethods.SetPrivateNoteOnProfile | bigbone/src/main/kotlin/social/bigbone/api/method/AccountMethods.kt:456-467 | a POST on the note endpoint; no parameters exactly for a null note, otherwise one comment entry |
| AccountMethods.NullNoteDiffersFromEmpty | bigbone/src/main/kotlin/social/bigbone/api/method/AccountMethods.kt:463-465 | a null note posts the empty body, an empty note a form with an empty comment |
| AccountMethods.PresentThree | bigbone/src/main/kotlin/social/bigbone/api/method/AccountMethods.kt:197-199 | helper lemma: unrolls the present entries over three optional slots, slot by slot |
| AccountMethods.PresentFour | bigbone/src/main/kotlin/social/bigbone/api/method/AccountMethods.kt:184-187 | helper lemma: unrolls the present entries over four optional slots, slot by slot |
| AccountMethods.PresentFive | bigbone/src/main/kotlin/social/bigbone/api/method/AccountMethods.kt:189-193 | helper lemma: unrolls the present entries over five optional slots, slot by slot |
| OAuthMethods.GrantValuesDistinct | bigbone/src/main/kotlin/social/bigbone/api/method/OAuthMethods.kt:142-146 | the three grant types have distinct values |
| OAuthMethods.GetOAuthUrl | bigbone/src/main/kotlin/social/bigbone/api/method/OAuthMethods.kt:27-36 | the authorize URL on the instance with client_id, redirect_uri, response_type=code and scope |
| OAuthMethods.OAuthUrlAsksForCode | bigbone/src/main/kotlin/social/bigbone/api/method/OAuthMethods.kt:30-34 | the URL asks for response_type=code |
| OAuthMethods.GetUserAccessTokenWithAuthorizationCodeGrant | bigbone/src/main/kotlin/social/bigbone/api/method/OAuthMethods.kt:48-66 | a POST to "oauth/token" with the client, the redirect URI, the code and grant_type=authorization_code |
| OAuthMethods.GetAccessTokenWithClientCredentialsGrant | bigbone/src/main/kotlin/social/bigbone/api/method/OAuthMethods.kt:80-100 | a POST to "oauth/token" with the client, the redirect URI, the scope when given and grant_type=client_credentials |
| OAuthMethods.GetUserAccessTokenWithPasswordGrant | bigbone/src/main/kotlin/social/bigbone/api/method/OAuthMethods.kt:114-136 | a POST to "oauth/token" with client, scope, redirect URI, user name, password and grant_type=password |
| OAuthMethods.LastGrant | bigbone/src/main/kotlin/social/bigbone/api/method/OAuthMethods.kt:58-134 | an entry list ending in a grant_type entry finds that grant |
| OAuthMethods.AuthorizationCodeGrant | bigbone/src/main/kotlin/social/bigbone/api/method/OAuthMethods.kt:59-63 | the authorization-code form ends with grant_type=authorization_code |
| OAuthMethods.PasswordGrant | bigbone/src/main/kotlin/social/bigbone/api/method/OAuthMethods.kt:127-133 | the password form ends with grant_type=password |
| OAuthMethods.ClientCredentialsScope | bigbone/src/main/kotlin/social/bigbone/api/method/OAuthMethods.kt:91-97 | four or five entries, grant_type last, and scope sent exactly when given, right before it |
| Apps.RegistrationForm | bigbone/src/main/kotlin/social/bigbone/api/method/Apps.kt:38-46 | the form is client_name, scopes and redirect_uris, plus website when given, joined by "&" |
| Apps.CreateApp | bigbone/src/main/kotlin/social/bigbone/api/method/Apps.kt:26-49 | a rejected scope is thrown before anything else; otherwise a POST of that form to "api/v1/apps" |
| Apps.AppRegistration.constructor | bigbone/src/main/kotlin/social/bigbone/api/method/Apps.kt:50-54 | a registration holds the decoded details and instance name |
| Apps.DecodeRegistration | bigbone/src/main/kotlin/social/bigbone/api/method/Apps.kt:50-54 | a decoding failure is the call's failure; otherwise the registration's instance name is the client's |
| Apps.RegistrationFormReadsBack | bigbone/src/main/kotlin/social/bigbone/api/method/Apps.kt:38-46 | with '&'-free values the form splits back into its three or four pieces |
| Apps.AmpersandInNameCutsIt | bigbone/src/main/kotlin/social/bigbone/api/method/Apps.kt:39 | values are not escaped: an '&' in the client name ends the first piece early |
| Apps.GetOAuthUrl | bigbone/src/main/kotlin/social/bigbone/api/method/Apps.kt:66-75 | the URL is "https://<instance>/oauth/authorize?client_id=<id>&redirect_uri=", then the redirect URI verbatim, then "&response_type=code&scope=<scope>", for any values |
| Apps.OAuthUrlShape | bigbone/src/main/kotlin/social/bigbone/api/method/Apps.kt:66-75 | "https://<instance>/oauth/authorize?" then a query that splits back into its four pieces, the third response_type=code |
| Apps.GetAccessToken | bigbone/src/main/kotlin/social/bigbone/api/method/Apps.kt:82-110 | a POST of a form body to "https://<instance>/oauth/token"; its text is read back by AccessTokenFormReadsBack |
| Apps.AccessTokenFormReadsBack | bigbone/src/main/kotlin/social/bigbone/api/method/Apps.kt:91-97 | for every grant type, with '&'-free values the token form reads back as client_id, client_secret, redirect_uri, code and grant_type=<grant type>, in that order |
| Apps.AccessTokenPiecesFree | bigbone/src/main/kotlin/social/bigbone/api/method/Apps.kt:91-97 | with '&'-free values, the grant type included, no piece of the token form contains '&' |
| Apps.DefaultGrantReadsBack | bigbone/src/main/kotlin/social/bigbone/api/method/Apps.kt:88-97 | without a grant type the same five pieces are sent, the last being grant_type=authorization_code |
| Apps.PostUserNameAndPassword | bigbone/src/main/kotlin/social/bigbone/api/method/Apps.kt:123-152 | a POST to the token URL of a form of the six entries in append order |
| Apps.PasswordFormShape | bigbone/src/main/kotlin/social/bigbone/api/method/Apps.kt:131-138 | six keys ending with grant_type=password, and no redirect_uri |
| AppMethods.CreateApp | bigbone/src/main/kotlin/social/bigbone/api/method/AppMethods.kt:23-43 | a rejected scope is thrown first; otherwise a POST on "api/v1/apps" with client_name, scopes, redirect_uris and the website when given |
| AppMethods.CreateAppLayout | bigbone/src/main/kotlin/social/bigbone/api/method/AppMethods.kt:34-41 | three mandatory entries with their values, the website fourth exactly when given |
| AppMethods.MandatoryLookups | bigbone/src/main/kotlin/social/bigbone/api/method/AppMethods.kt:35-37 | each mandatory key finds its own value |
| AppMethods.VerifyCredentials | bigbone/src/main/kotlin/social/bigbone/api/method/AppMethods.kt:49-54 | a GET on "api/v1/apps/verify_credentials" without parameters |
| ReportMethods.FileReport | bigbone/src/main/kotlin/social/bigbone/api/method/ReportMethods.kt:22-32 | a POST on "api/v1/reports" with account_id, status_ids and comment |
| ReportMethods.ReportCarriesEverything | bigbone/src/main/kotlin/social/bigbone/api/method/ReportMethods.kt:26-30 | all three entries are always sent, each key finding its value |
| MutedAccounts.MutedAccount.ToAccount | bigbone/src/main/kotlin/social/bigbone/api/entity/MutedAccount.kt:191-219 | the account without its mute expiry: the muted account is rebuilt from the projection and the expiry |
| MutedAccounts.Muted | bigbone/src/main/kotlin/social/bigbone/api/entity/MutedAccount.kt:16-187 | an account muted until a time keeps that expiry |
| MutedAccounts.ProjectionForgetsOnlyTheExpiry | bigbone/src/main/kotlin/social/bigbone/api/entity/MutedAccount.kt:191-219 | projecting an account muted until any time gives the account back |
| MutedAccounts.ExpiryIsNotCarried | bigbone/src/main/kotlin/social/bigbone/api/entity/MutedAccount.kt:184-219 | muted accounts that differ only in expiry project to the same account |
| MutedAccounts.Defaults | bigbone/src/main/kotlin/social/bigbone/api/entity/MutedAccount.kt:22-186 | defaults: id "0", empty strings and lists, false flags, null optionals, zero counts, unavailable dates |
| Scopes.Scope.Validate | bigbone/src/main/kotlin/social/bigbone/api/method/Apps.kt:33 | stand-in for the Scope class, which is not part of this model: its validation is abstracted as a given rejection, and validating throws exactly that rejection |
| Throwables.Describe | bigbone/src/main/kotlin/social/bigbone/api/exception/BigBoneRequestException.kt:12-14 | an exception built from a cause gets the cause's class name as message, followed by ": " and the cause's message when it has one |

## Left out

- JSON decoding of responses (Gson and kotlinx.serialization) is not modelled. Wherever a body is decoded, the decoder is a parameter: NodeInfo, the instance version and the registration of `Apps.createApp`.
- Parsing ISO 8601 date-times (`java.time`) is not modelled. The two parsers are parameters of `DeserializeDateTime`.
- OkHttp itself is not modelled: connection handling, redirects, timeouts, and URL validation in `toHttpUrl`. A server or URL failure is an exception raised by the transport function.
- Percent-encoding is not modelled: `Parameters.toQuery`/`build()` and the query that the five-argument `fullUrl` renders. Bodies and queries carry the entry list itself. So `OAuthMethods.GetOAuthUrl` returns the endpoint and the entries instead of a rendered URL string.
- `MastodonRequest` execution beyond dispatch is not modelled. Decoding the typed result, `Pageable` construction from the `Link` header, and the rx and streaming wrappers are left out.
- Debug printing of URLs, the lazily created method-class properties and the Gson instance have no effect the model tracks, and are left out.
- Only the `AccountMethods` operations registerAccount, updateCredentials (with `ProfileFields`), getStatuses, followAccount and setPrivateNoteOnProfile are modelled. The other account endpoints lie outside the modelled core and are left out.
- The default scopes `Scope(READ)` and `Scope(ALL)` are not modelled, because `Scope` is not part of these sources. The scope argument is therefore mandatory in `OAuthMethods.GetUserAccessTokenWithPasswordGrant`, `Apps.CreateApp` and `AppMethods.CreateApp`.
- `Visibility.apiName` and `LocalDate.toString` are given as the strings they produce.
- Kotlin string lengths count UTF-16 code units. The model counts characters, which differs for text outside the Basic Multilingual Plane. This affects `MakeProfileFieldName` and `MakeProfileFieldValue`.
- The subclasses of `IOException` are not told apart: `IOException` stands for the whole family, and its class name is always rendered as `java.io.IOException`.
- `Char.isDigit` also accepts non-ASCII decimal digits. `ToIntOrNull` accepts ASCII digits only.
- In `getInstanceVersion`, a successful response that is never decoded is not closed in the source either. The model does not state anything about those responses beyond what is received.
- `Account.Field` and `CustomEmoji` keep only a name/value and a shortcode/URL. Their other fields do not affect `toAccount`.

