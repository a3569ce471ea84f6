# ClockWork.ScriptBuilder layout and rendering engine, in Dafny

ClockWork.ScriptBuilder builds JavaScript and XML text from a tree of
script items. Each item negotiates a layout: Inline, InlineBlock or Block.
A `ScriptWriter` then renders the tree, keeping track of the indent level
and of whether it stands at the start of a line. This project models that
engine and proves properties of the model:

- **Layouts**: the layout of every node (the `Layout` getter,
  `TrySetLayout` and `IsLayoutEstablished`), and the cascade of a layout
  change from a container into its content (`ScriptWrapper`,
  `JsParameters`, `JsFunction`).
- **Nodes as values** (module `Values`): `Value = Null | Str | Scalar | Arr | Node(Item)`.
  An `Item` holds its stored layout, its `Indents` and the data of its kind.
  The kinds are the plain item, sets, wrappers, `ScriptIf`,
  `ScriptCompressible`, `JsFunction`, `JsIf`, `JsQuote`, `JsProperty`,
  `XsText`, `XsAttribute` and `XsCData`. The other modules use these
  values to define render content, `ScriptIfResult` and render lists.
- **The writer** (module `WriterSpec` and class `Writer.ScriptWriter`):
  its observable state is the text written so far, the indent level and
  the start-of-line flag. The class keeps the settings and the
  indent-string cache as fields, and its methods update them in place.
- **Rendering** (functions in `RenderSpec`, methods in `Rendering`):
  - The functions say what every `OnRender` does to the writer state.
  - The methods of `Rendering` take a `ScriptWriter`. They follow the
    source step by step, loops included, except at the three places
    listed under "## Findings" where the render uses the corrected
    behaviour: the quote entity of XsAttribute, the XsText children of
    XsElement and the null Text of JsQuote.
  - Each method is proved to leave exactly the state its function gives.
  - `RenderFacts` holds the rendering properties: separators and line
    breaks of the set loop, indentation balance, if/else emission,
    self-closing elements, and how the escaped output of the XML and JS
    nodes reads back.
- **The mutable lists**: the classes `ScriptSets.ScriptSet` and
  `ScriptSets.ScriptSetWrapper`, with the IList operations, `RegisterItem`
  and `AddToRenderList`.
- **The string helpers**:
  - XML escaping of text, attribute values and CDATA sections (`XmlEncoding`),
    checked against a decoder for the entities of sections 2.4 and 4.6 and
    the CDATA sections of section 2.7 of XML 1.0, and against the reading
    an XML processor gives after the line-end handling of section 2.11 and
    the attribute-value normalization of section 3.3.3;
  - JavaScript quoting (`JsQuoting`), checked against a reader of string
    literals in which a raw line feed or carriage return ends the literal
    unterminated;
  - the short variable names of `JsVariableFactory` (`VariableNames`),
    with their inverse;
  - the property search of `JsPropertyList` (`JsPropertyLists`);
  - `ExtJs.GetNamespace` and `ExtJs.ExtJsType` (`ExtJsHelpers`).

The .NET host is a parameter, the record `Values.Env`. It holds:

- the platform newline, either "\n" or "\r\n";
- `XmlConvert.EncodeName`;
- `Convert.ToBoolean`, as a partial function (None where it throws);
- the default format provider's formatting of scalars.

A writer's own format provider is a field of its settings.

## Model

| member | source | states |
|---|---|---|
| Layouts.Effective | ScriptItem.cs:91-128 | The Layout getter returns only Inline, InlineBlock or Block. A stored concrete layout is returned as it is. NotAlreadyEstablished and Default give the node type's DefaultLayout. |
| Values.Layout | ScriptItem.cs:77-80 | A node's layout is its stored concrete layout. Otherwise it is the DefaultLayout of its kind: Block for Script and JsBlock, Inline otherwise. |
| Layouts.TrySet | ScriptItem.cs:144-167 | TrySetLayout fires a change only when the new stored value is the request and differs from the old one. Without a change, the stored layout stays as it was. |
| Layouts.FirstWins | ScriptItem.cs:144-146 | Once a layout is established, a first-wins request changes nothing and notifies nothing. |
| Layouts.NoneIsIgnored | ScriptItem.cs:151-154 | A request for None never changes the layout, forced or not. |
| Layouts.ForcedRequestWins | ScriptItem.cs:144-163 | A forced request for a layout other than None that differs from the stored one is stored. It notifies exactly once. |
| Layouts.RequestIsIdempotent | ScriptItem.cs:144-167 | Repeating a request has no further effect, so the notification fires at most once. |
| Layouts.Constructed | ScriptItem.cs:46-66 | After the constructor, the layout counts as established exactly when the layout passed in is neither None nor NotAlreadyEstablished. The parameterless constructor passes None and leaves it unestablished. |
| Layouts.FirstRealOfferWins | ScriptItem.cs:172-175 | For a sequence of first-wins requests on a fresh node, the first request for a real layout wins. Every later request is ignored. |
| Layouts.Cascade | ScriptWrapper.cs:172-199 | ContentLayout follows the cascade table: Inline gives Inline, InlineBlock and Block give Block. None, NotAlreadyEstablished and Default leave it unchanged. |
| Values.LayoutChanged | JavaScript/JsFunction.cs:370-377 | OnLayoutChanged of each kind. A JsFunction copies the new layout verbatim into BlockLayout. Kinds other than wrappers and functions are unchanged. Sizes are kept. |
| Values.SetLayout | ScriptItem.cs:144-167 | TrySetLayout on a node value: the stored layout changes as TrySet says. When a change fires, the node's OnLayoutChanged applies once. Otherwise the node is unchanged. |
| Values.Construct | ScriptItem.cs:55-59 | ScriptItem(layout) stores the layout unless it is None. The node is established exactly for a real layout. Indents is kept. |
| Values.OfferLayout | ScriptItem.cs:184-188 | ObjectTrySetLayout makes a first-wins request of a node. Anything that is not a node is returned unchanged. |
| Values.LayoutKeepsContent | ScriptItem.cs:415-421 | A layout change alters neither HasRenderContent nor ScriptIfResult. |
| Values.OfferKeepsContent | ScriptWrapper.cs:215 | Offering ContentLayout to the content keeps its render content. |
| Values.OfferToEstablished | ScriptWrapper.cs:215 | An offer to a node that has an established layout changes nothing. |
| Values.AnyContentIsSome | ScriptSet.cs:290-302 | HasRenderContentInSet holds exactly when some raw item has render content. |
| Values.WrapperIfResultIgnoresBrackets | ScriptWrapper.cs:267-273 | A wrapper's ScriptIfResult depends only on Content, never on Before or After. |
| Values.BracketsAreContent | ScriptWrapper.cs:249-259 | A wrapper with a non-empty Before string has render content, whatever its content. |
| Values.Winner | ScriptIf.cs:163-169 | Winner is always the true value or the false value. |
| Values.IfContentIsWinnerContent | ScriptIf.cs:176-182 | A ScriptIf has render content exactly when its winner has. Its ScriptIfResult equals its HasRenderContent. |
| Values.FailedTestSelectsFalse | ScriptIf.cs:137-157 | A null test, or a test that Convert.ToBoolean rejects, selects the false value. |
| Values.NodeTestSelects | ScriptIf.cs:143-146 | A node used as a test selects the true value exactly when its ScriptIfResult holds. |
| Values.Flatten | ScriptSet.cs:175-186 | The plain render list has no array left in it. Every entry is a part of the raw items. |
| Values.FlattenAppend | ScriptSet.cs:157-167 | Flattening a concatenation concatenates the flattened parts, so the left-to-right order is kept. |
| Values.FlattenIsIdempotent | ScriptSet.cs:175-186 | Flattening a render list again changes nothing. |
| Values.PropFlatten | JavaScript/JsPropertyList.cs:161-182 | The property-list render list is made of parts of the raw items. |
| Values.PropEntry | JavaScript/JsPropertyList.cs:161-182 | A JsObject contributes its properties, a nested property list its items and an array its elements, each recursively. Any other entry falls through to the base class. |
| Values.PropFlattenAppend | JavaScript/JsPropertyList.cs:161-182 | The property-list render list of a concatenation is the concatenation of the two render lists. |
| Values.ElementEntry | XmlScript/XsElement.cs:187-200 | An attribute contributes nothing to the render list. Every other item contributes exactly one entry, and that entry is never an attribute. |
| Values.ElementListAsWritten | XmlScript/XsElement.cs:187-200 | The element's render list, as the source builds it, holds no attribute. |
| Values.ElementList | XmlScript/XsElement.cs:187-200 | The render list with XsText taken as an XML node holds no attribute either. |
| Values.TextChildList | XmlScript/XsElement.cs:193-198 | As written, an XsText child is wrapped in a second XsText. Taken as an XML node, it is kept as it is. |
| Values.ElementListsAgree | XmlScript/XsElement.cs:187-200 | Without XsText children, the list as written and the corrected list are the same. |
| Values.ElementRendersTextChildOnce | XmlScript/XsElement.cs:193-198 | In the corrected render list an element holds its XsText child once; as written it holds it wrapped in a second XsText. |
| Values.RenderList | ScriptSet.cs:157-167 | GetRenderList uses the AddToRenderList of the set's class. Every entry is smaller than the set. An element's list holds no attribute. For an element this is the corrected list of Findings row 3 (ElementList), not the source's re-wrapping list |
| Values.SetNeverContainsItself | ScriptSet.cs:515-547 | A set never occurs among its own AllItems, so the DEBUG Assert never throws on a set built from values. |
| Values.CompressibleNode | ScriptCompressible.cs:46-50 | The constructor stores Full and Compressed unchanged and establishes no layout. |
| Values.ScriptNode | Script.cs:84-87 | A Script is a separator-less set whose default layout is Block. |
| Values.IndentNode | ScriptIndent.cs:85 | A ScriptIndent is a Block Script with one extra indent. |
| Values.JsListNode | JavaScript/JsList.cs:90 | A JsList is an Inline set separated by ", ". |
| Values.LineNode | ScriptLine.cs:40-79 | A ScriptLine is an Inline set without a separator. |
| Values.PropertyListNode | JavaScript/JsPropertyList.cs:40-80 | A JsPropertyList is an Inline set separated by ", ". |
| Values.ElementNode | XmlScript/XsElement.cs:40-106 | An XsElement is a set that carries its name, with Inline as its default layout. |
| Values.TextItem | XmlScript/Xs.cs:101 | Xs.Text(o) is an XsText around o, with no layout established. |
| Values.WrapperNode | ScriptWrapper.cs:66-71 | A new wrapper has one internal indent. Its ContentLayout is the cascade of the constructor's layout. |
| Values.BlockNode | JavaScript/JsBlock.cs:121-193 | A JsBlock has "{" and "}" around a Script and one internal indent. Without a requested layout it lays out as a Block. |
| Values.ObjectNode | JavaScript/JsObject.cs:129-146 | A JsObject has braces around a JsPropertyList of the given properties. |
| Values.ParametersNode | JavaScript/JsParameters.cs:137-143 | JsParameters has "(" and ")" around a JsList, with InternalIndents 1. ListLayout is the cascade of the constructor's layout, and None when no layout was given. |
| Values.FunctionNode | JavaScript/JsFunction.cs:179-185 | A new JsFunction's BlockLayout is the layout passed to the constructor, or NotAlreadyEstablished when none was passed. |
| Values.IfNode | JavaScript/JsIf.cs:105-121 | Initialise uses a JsBlock branch as the block itself. Any other true item goes into a new InlineBlock block. Any other false item goes into a new default block. A null false item leaves no false block. |
| Values.FunctionParameters | JavaScript/JsFunction.cs:313-323 | The Parameters getter returns the stored parameters, or an empty list on first use. |
| Values.FunctionBlockOrDefault | JavaScript/JsFunction.cs:329-337 | The Block getter returns the stored block, or an empty block laid out by BlockLayout. |
| RenderFacts.FunctionBlockChoice | JavaScript/JsFunction.cs:420-428 | With BlockLayout unset, the block is offered Block when the parameter list is not Inline and InlineBlock when it is. Otherwise it is offered BlockLayout. Both offers are first-wins. |
| RenderFacts.PlainFunctionHasInlineBlock | JavaScript/JsFunction.cs:420-426 | A function made without a layout, parameters or block writes its new block as an InlineBlock. |
| RenderFacts.BlockFunctionHasBlock | JavaScript/JsFunction.cs:370-377 | A function constructed as Block also writes its block as a Block. |
| WriterSpec.DefaultSettings | ScriptWriter.cs:364-385 | A new writer indents with a tab, includes indentation, does not compress and uses the platform newline. |
| WriterSpec.Fresh | ScriptWriter.cs:435 | A fresh writer has written nothing. It stands at the start of a line at indent level 0. |
| WriterSpec.IndentString | ScriptWriter.cs:392-413 | The indent string is IndentText repeated CurrentIndentLevel times, or "" when IncludeIndentation is off. |
| WriterSpec.Emit | ScriptWriter.cs:169-188 | Writing the empty string changes nothing. Any other string is appended and clears the start-of-line flag. |
| WriterSpec.NewLineAndIndent | ScriptWriter.cs:195-205 | At the start of a line nothing happens. Otherwise the newline and the indent string are appended and the writer is at the start of a line. |
| WriterSpec.ForcedNewLineAndIndent | ScriptWriter.cs:195-205 | WriteNewLineAndIndent(false) always appends the newline and the indent string. |
| WriterSpec.BeginIndent | ScriptWriter.cs:312-318 | BeginIndent(n) adds n to the level and changes nothing else. |
| WriterSpec.EndIndent | ScriptWriter.cs:338-349 | EndIndent(n) subtracts n when the level is at least n. Otherwise it sets the level to 0. |
| WriterSpec.EndIndentNeverNegative | ScriptWriter.cs:338-349 | For n >= 0 the level after EndIndent is never negative. |
| WriterSpec.IndentBalance | ScriptWriter.cs:312-349 | From a non-negative level, BeginIndent(n) followed by EndIndent(n) restores the writer exactly. |
| WriterSpec.IndentClampsNegative | ScriptWriter.cs:338-349 | From a negative level, the same pair ends at level 0. |
| WriterSpec.NewLineIsIdempotent | ScriptWriter.cs:195-205 | Two WriteNewLineAndIndent() calls in a row write one line break. |
| WriterSpec.IndentStringLength | ScriptWriter.cs:392-413 | The indent string has level times the length of IndentText. |
| Writer.CachedIndent | ScriptWriter.cs:392-413 | The getter as written agrees with the indent string whenever the cache agrees with IndentText, or the level is not cached. |
| Writer.StaleIndentCache | ScriptWriter.cs:370-374 | After IndentText changes, a level cached earlier still gives the old text. |
| Writer.ScriptWriter.constructor | ScriptWriter.cs:54-61 | ScriptWriter(writer) gives the default settings, an empty cache and a fresh state. |
| Writer.ScriptWriter.WithFormat | ScriptWriter.cs:80-88 | ScriptWriter(writer, formatProvider) gives the default settings with the given format provider. |
| Writer.ScriptWriter.CopyOf | ScriptWriter.cs:109-152 | ScriptWriter(writer, scriptWriter) copies the format provider, IndentText, IncludeIndentation, NewLine and Compress over a fresh state. |
| Writer.ScriptWriter.WriteFormatted | ScriptWriter.cs:177-186 | The formatted text is appended, and the writer is no longer at the start of a line. |
| Writer.ScriptWriter.Write | ScriptWriter.cs:169-188 | The new state is the Emit of the string. |
| Writer.ScriptWriter.WriteNewLine | ScriptWriter.cs:221-225 | The newline text is written. |
| Writer.ScriptWriter.GetIndentString | ScriptWriter.cs:392-413 | The loop builds IndentText repeated level times and caches it. The result equals the indent string and the cached getter. Only that level of the cache changes. |
| Writer.ScriptWriter.WriteIndent | ScriptWriter.cs:232-235 | The indent string of the current level is written. |
| Writer.ScriptWriter.WriteNewLineAndIndent | ScriptWriter.cs:195-205 | With unlessAtStartOfLine the state moves as NewLineAndIndent says. Without it, the state moves as ForcedNewLineAndIndent says. |
| Writer.ScriptWriter.BeginIndent | ScriptWriter.cs:312-318 | The state moves as WriterSpec.BeginIndent says. |
| Writer.ScriptWriter.EndIndent | ScriptWriter.cs:338-349 | The state moves as WriterSpec.EndIndent says. |
| Writer.ScriptWriter.SetStartOfLine | ScriptWriter.cs:439-443 | Only the start-of-line flag changes. |
| Writer.ScriptWriter.SetIndentLevel | ScriptWriter.cs:358-362 | Only the level changes. |
| Writer.ScriptWriter.SetIndentText | ScriptWriter.cs:370-374 | IndentText changes and the cache is emptied, so the cache agrees with the new text. |
| Writer.ScriptWriter.SetIncludeIndentation | ScriptWriter.cs:381-385 | Only IncludeIndentation changes. |
| Writer.ScriptWriter.SetNewLine | ScriptWriter.cs:449-459 | Only NewLine changes. |
| Writer.ScriptWriter.SetCompress | ScriptWriter.cs:287-291 | Only Compress changes. |
| Writer.IndentIsCached | ScriptWriter.cs:398-406 | Two calls of the getter return the same string, and afterwards the level is in the cache with that string. |
| RenderSpec.BreakIf | ScriptWriter.cs:195-205 | A conditional WriteNewLineAndIndent() does nothing when the condition is false. |
| RenderSpec.Write | ScriptWriter.cs:169-188 | An object without render content changes nothing. An object with content only appends, keeps a non-negative level, and leaves the writer off the start of a line. |
| RenderSpec.RenderItem | ScriptItem.cs:358-386 | Render(writer, indents) only appends and leaves a non-negative level where it was. |
| RenderFacts.InlineItemIgnoresIndents | ScriptItem.cs:364-365 | An Inline node renders as its OnRender alone, whatever its Indents. |
| RenderFacts.MultiLineItemIndents | ScriptItem.cs:364-377 | A Block or InlineBlock node renders its Indents levels deeper, and the level is restored afterwards. |
| RenderSpec.SubRender | JavaScript/JsQuote.cs:117-123 | A new writer with the same settings writes nothing for an object without content. |
| RenderSpec.OnRender | ScriptItem.cs:403-407 | Every kind of node only appends in its OnRender and leaves a non-negative level where it was. |
| RenderSpec.OnRenderSet | ScriptSet.cs:203-258 | ScriptSet.OnRender only appends and balances the level. What it writes, item by item and break by break, is stated by RenderFacts.SetLoopIsScheduled and RenderFacts.BlockSetStartsOnNewLine. |
| RenderSpec.SetLoop | ScriptSet.cs:214-255 | The render loop only appends and balances the level. |
| RenderSpec.Attributes | XmlScript/XsElement.cs:130-137 | The attributes of an element are attribute nodes taken from its items, no more of them than there are items. |
| RenderSpec.ElementForRender | XmlScript/XsElement.cs:143-144 | The element's first-wins request for Block keeps its items and its size. |
| RenderSpec.OnRenderElement | XmlScript/XsElement.cs:117-179 | XsElement.OnRender only appends and balances the level. Its children go through the corrected render list of Findings row 3. The start tag, the self-closing form and the end tag are stated by RenderFacts.ElementOpens, ElementSelfCloses and ElementHasEndTag. |
| RenderSpec.ElementInner | XmlScript/XsElement.cs:158-174 | The inner part only appends, and its BeginIndent/EndIndent pair is balanced. The children go through the corrected render list of Findings row 3 |
| RenderSpec.AttrLoop | XmlScript/XsElement.cs:152-156 | The attribute loop only appends and balances the level. |
| RenderSpec.OnRenderWrapper | ScriptWrapper.cs:208-244 | ScriptWrapper.OnRender only appends. The InternalIndents pair is balanced. The brackets around the indented content are stated by RenderFacts.WrapperIndentsContent and EmptyContentJoinsBrackets. |
| RenderSpec.FunctionKeyword | JavaScript/JsFunction.cs:436-443 | The keyword is "function " followed by the name when there is a name, and "function" otherwise. |
| RenderSpec.OnRenderFunction | JavaScript/JsFunction.cs:413-466 | JsFunction.OnRender only appends. The +1 indent around the parameters is balanced. The keyword that opens the output is stated by RenderFacts.FunctionStartsWithKeyword, the choice of block by FunctionBlockChoice. |
| RenderSpec.OnRenderIf | JavaScript/JsIf.cs:177-209 | JsIf.OnRender only appends. The +1 indent around the condition is balanced. The keyword that opens the output and the else branch written only with content are stated by RenderFacts.IfStartsWithKeyword and ElseOnlyWithContent. |
| RenderSpec.OnRenderQuote | JavaScript/JsQuote.cs:103-131 | JsQuote.OnRender with the correction of Findings row 4 (one pair of quotes for null Text) only appends, and it leaves the level where it was. The literal it writes and how it reads back are stated by RenderFacts.QuoteReadsBack. |
| RenderSpec.OnRenderProperty | JavaScript/JsProperty.cs:97-114 | JsProperty.OnRender only appends, and it leaves the level where it was. The name, colon and value it writes are stated by RenderFacts.PropertyWrites. |
| RenderSpec.OnRenderText | XmlScript/XsText.cs:71-90 | XsText.OnRender only appends, and it leaves the level where it was. The encoded text it writes and how it reads back are stated by RenderFacts.TextReadsBack. |
| RenderSpec.OnRenderAttribute | XmlScript/XsAttribute.cs:84-105 | XsAttribute.OnRender with the correction of Findings row 2 ("&quot;" for a quote) only appends, and it leaves the level where it was. The name="value" it writes and how the value reads back are stated by RenderFacts.AttributeReadsBack. |
| RenderSpec.OnRenderCData | XmlScript/XsCData.cs:71-93 | XsCData.OnRender only appends, and it leaves the level where it was. The CDATA sections it writes and how they read back are stated by RenderFacts.CDataReadsBack. |
| RenderSpec.QuoteAsWritten | JavaScript/JsQuote.cs:103-131 | JsQuote.OnRender as written only appends and balances the level. |
| RenderSpec.AttributeAsWritten | XmlScript/XsAttribute.cs:84-117 | XsAttribute.OnRender as written, with "&quote;" for a quote, only appends and balances the level. |
| RenderSpec.RenderAt | Sb.cs:232-243 | Sb.Render(o, indentations) gives "" for an object without content. |
| RenderSpec.RenderToString | Sb.cs:220-223 | Sb.Render(o) gives "" for an object without content, and a string renders as itself. |
| RenderSpec.Format | ScriptWriter.cs:265-281 | Format(null) is "". For every other value that is not a node, Write writes exactly the formatted text. A node with render content formats to what a fresh writer with this format provider writes for it. |
| RenderFacts.FormatRendersContentlessNode | ScriptFormatProvider.cs:72-77 | Formatting a node goes through ScriptItem.Render(formatProvider), which has no render-content check: a property with a null name formats to ": v", where Write writes nothing. |
| Rendering.BreakIf | ScriptWriter.cs:195-205 | The writer moves as RenderSpec.BreakIf says. |
| Rendering.Write | ScriptWriter.cs:169-188 | ScriptWriter.Write(object) moves the writer exactly as RenderSpec.Write says. |
| Rendering.RenderItem | ScriptItem.cs:358-386 | Render(writer, indents) moves the writer exactly as RenderSpec.RenderItem says. |
| Rendering.SubRender | JavaScript/JsQuote.cs:117-123 | A new writer with copied settings produces the text RenderSpec.SubRender gives. |
| Rendering.OnRender | ScriptItem.cs:403-407 | The OnRender of each kind moves the writer exactly as RenderSpec.OnRender says. |
| Rendering.OnRenderQuote | JavaScript/JsQuote.cs:103-131 | JsQuote.OnRender with its separate writer, and with the correction of Findings row 4, moves the writer exactly as RenderSpec.OnRenderQuote says. |
| Rendering.OnRenderProperty | JavaScript/JsProperty.cs:97-114 | JsProperty.OnRender moves the writer exactly as RenderSpec.OnRenderProperty says. |
| Rendering.OnRenderText | XmlScript/XsText.cs:71-90 | XsText.OnRender moves the writer exactly as RenderSpec.OnRenderText says. |
| Rendering.OnRenderAttribute | XmlScript/XsAttribute.cs:84-105 | XsAttribute.OnRender, with the correction of Findings row 2, moves the writer exactly as RenderSpec.OnRenderAttribute says. |
| Rendering.OnRenderCData | XmlScript/XsCData.cs:71-93 | XsCData.OnRender moves the writer exactly as RenderSpec.OnRenderCData says. |
| Rendering.OnRenderSet | ScriptSet.cs:203-258 | The loop with its mutable first flag moves the writer exactly as RenderSpec.OnRenderSet says. |
| Rendering.Partition | XmlScript/XsElement.cs:126-141 | The loop's attributes list and hasInnerNodes and hasElements flags are the element's attributes in order, "some item is not an attribute" and "some item is an element". |
| Rendering.WriteAttributes | XmlScript/XsElement.cs:152-156 | The attribute loop moves the writer exactly as RenderSpec.AttrLoop says. |
| Rendering.OnRenderElement | XmlScript/XsElement.cs:117-179 | XsElement.OnRender, with the corrected render list of Findings row 3, moves the writer exactly as RenderSpec.OnRenderElement says. |
| Rendering.ElementInner | XmlScript/XsElement.cs:158-174 | The inner part, with the corrected render list of Findings row 3, moves the writer exactly as RenderSpec.ElementInner says. |
| Rendering.OnRenderWrapper | ScriptWrapper.cs:208-244 | ScriptWrapper.OnRender moves the writer exactly as RenderSpec.OnRenderWrapper says. |
| Rendering.OnRenderFunction | JavaScript/JsFunction.cs:413-466 | JsFunction.OnRender moves the writer exactly as RenderSpec.OnRenderFunction says. |
| Rendering.OnRenderIf | JavaScript/JsIf.cs:177-209 | JsIf.OnRender moves the writer exactly as RenderSpec.OnRenderIf says. |
| Rendering.RenderAt | Sb.cs:232-243 | Sb.Render(o, indentations) gives RenderSpec.RenderAt, which is "" for an object without content. |
| Rendering.AttributesAppend | XmlScript/XsElement.cs:130-137 | The attributes of a concatenation are the attributes of each part, in order. |
| RenderFacts.SetLoopIsScheduled | ScriptSet.cs:214-255 | The set loop carries out a schedule over the counted entries, which are the entries other than null and contentless nodes. The first entry is written alone. Each later one follows the separator, and a line break when BreaksBefore says so. |
| RenderFacts.SetLoopSkipsUncounted | ScriptSet.cs:218-237 | Null entries and nodes without content write nothing and leave the first flag alone. |
| RenderFacts.SchedulePutsEntries | ScriptSet.cs:253 | The loop writes exactly the counted entries, in order. |
| RenderFacts.ScheduleSeparators | ScriptSet.cs:225-244 | There is one separator fewer than there are counted entries. An empty string counts too. |
| RenderFacts.ScheduleBreaks | ScriptSet.cs:232-247 | A line break comes before exactly the later entries that BreaksBefore picks out: a multi-line set and a plain value or Inline node. |
| RenderFacts.ScheduleBreaksAfterSeparators | ScriptSet.cs:229-247 | Every line break of the loop directly follows a separator. |
| RenderFacts.InlineScheduleHasNoBreaks | ScriptSet.cs:232-247 | An Inline set never breaks a line between its entries. |
| RenderFacts.RunAppend | ScriptSet.cs:216-255 | Running two schedules in turn is running their concatenation. |
| RenderFacts.CountedEntries | ScriptSet.cs:218-223 | The counted entries are a subsequence of the render list, each counted. |
| RenderFacts.CountsAppend | ScriptSet.cs:216-255 | Entries, separators and line breaks of a concatenated schedule add up. |
| RenderFacts.BlockSetStartsOnNewLine | ScriptSet.cs:210-211 | A Block set with content, away from the start of a line, starts with the newline and the indent of the current level. |
| RenderFacts.IfWritesOnlyTheWinner | ScriptIf.cs:190-200 | A ScriptIf writes exactly its winner. The value that lost has no influence on the output. |
| RenderFacts.NullTestWritesFalseValue | ScriptIf.cs:140-141 | A null test writes the false value. |
| RenderFacts.CompressibleWritesOneForm | ScriptCompressible.cs:77-87 | Compressed is written when the writer compresses, and Full otherwise. Exactly one form is written, and the other has no influence. |
| RenderFacts.CompressibleAlwaysHasContent | ScriptItem.cs:415-421 | ScriptCompressible keeps the default HasRenderContent, so it always reports content. |
| RenderFacts.WrapperIndentsContent | ScriptWrapper.cs:225-234 | Without Before and After, the content is offered ContentLayout and written InternalIndents levels deeper. The level is restored afterwards. |
| RenderFacts.EmptyContentJoinsBrackets | ScriptWrapper.cs:217-242 | When the content has nothing to show, Before and After are written back to back without a line break. |
| RenderFacts.BlockWrapperBreaksBeforeBefore | ScriptWrapper.cs:217-223 | In a Block wrapper whose content shows, Before starts on a new line. |
| RenderFacts.FunctionStartsWithKeyword | JavaScript/JsFunction.cs:432-443 | A JsFunction's output begins with the keyword, after the line break of a Block function. |
| RenderFacts.ElseOnlyWithContent | JavaScript/JsIf.cs:205-209 | " else " and the false block are written exactly when a false block exists and has content. Otherwise the output is that of the statement without a false block. |
| RenderFacts.EmptyBlockHasContent | JavaScript/JsIf.cs:205-209 | An empty JsBlock has content (its braces), so an empty false block is still written after " else ". |
| RenderFacts.IfStartsWithKeyword | JavaScript/JsIf.cs:184-187 | A JsIf's output begins with "if (", after the line break of a Block statement. |
| RenderFacts.AttributesAreSpaced | XmlScript/XsElement.cs:152-156 | The attribute loop writes the attributes in list order, each after a space. |
| RenderFacts.ElementOpens | XmlScript/XsElement.cs:147-150 | An element's output begins with "<" and the encoded name. |
| RenderFacts.ElementSelfCloses | XmlScript/XsElement.cs:158-180 | An element with no inner nodes ends with "/>". |
| RenderFacts.ElementHasEndTag | XmlScript/XsElement.cs:158-176 | An element with inner nodes ends with its end tag. |
| RenderFacts.ElementCloses | XmlScript/XsElement.cs:171-175 | The inner part ends with "</name>". |
| RenderFacts.ChildElementMakesBlock | XmlScript/XsElement.cs:139-144 | A child element makes an unestablished element a Block. An established layout is kept, because the request is first-wins. |
| RenderFacts.TextReadsBack | XmlScript/XsText.cs:71-90 | XsText writes the encoded rendering of its text. The output has no raw angle bracket and its entities decode back to that rendering. When the rendering has no carriage return, an XML processor, line-end handling included, reads it back as that rendering. |
| RenderFacts.AttributeReadsBack | XmlScript/XsAttribute.cs:84-104 | With the correction of Findings row 2, XsAttribute writes name="value", with no raw <, >, ' or " in the value. When the rendering has no line feed, the value's entities decode back to it. When it also has no carriage return and no tab, an XML processor, attribute-value normalization included, reads the value back as the rendering. As written, this holds when the rendering has no quote (AttributeAgreesWithSource). |
| RenderFacts.CDataReadsBack | XmlScript/XsCData.cs:71-93 | XsCData writes one CDATA section that reads back as the rendered data, "]]>" included. When the data has no carriage return, this also holds through an XML processor's line-end handling. |
| RenderFacts.QuoteReadsBack | JavaScript/JsQuote.cs:103-131 | With the correction of Findings row 4, JsQuote writes one literal. Read as JavaScript, it gives back the rendering when that has no backslash, no line feed and no carriage return. As written, this holds when Text is not null (QuoteAgreesWithSource). |
| RenderFacts.NullQuoteAsWrittenHasFourQuotes | JavaScript/JsQuote.cs:114-130 | With null Text the source writes four quote characters. The corrected render writes two. |
| RenderFacts.QuoteAgreesWithSource | JavaScript/JsQuote.cs:103-131 | For a Text that is not null, the corrected render and the source's render are the same. |
| RenderFacts.AttributeAgreesWithSource | XmlScript/XsAttribute.cs:84-117 | For a rendered value without a quote, the corrected render and the source's render are the same. |
| RenderFacts.PropertyWrites | JavaScript/JsProperty.cs:97-114 | JsProperty writes its name, then ": ", then its value, with nothing in between, when no line break comes first. |
| RenderFacts.TextNodeRenders | XmlScript/XsText.cs:71-90 | A new XsText renders as the encoding of what its text renders as. |
| RenderFacts.TextInElementAsWrittenIsEncodedTwice | XmlScript/XsElement.cs:193-198 | As written, an XsText inside an element is encoded twice: "<" comes out as "&amp;lt;". As an XML node it comes out as "&lt;". |
| RenderFacts.EmitEndsWith | ScriptWriter.cs:169-188 | After a non-empty string is written, the output ends with it. |
| RenderFacts.EmitAdds | ScriptWriter.cs:169-188 | Writing a string appends it. |
| XmlEncoding.EncodeTextIsSafe | XmlScript/XsText.cs:99-102 | XsText.Encode leaves no raw '<' or '>', and its output is never shorter than its input. |
| XmlEncoding.EncodeTextIsPerCharacter | XmlScript/XsText.cs:101 | The chain of three Replace calls is a per-character escape, because '&' is replaced first. |
| XmlEncoding.EncodeTextSingle | XmlScript/XsText.cs:101 | Each '&' becomes exactly "&amp;", each '<' "&lt;" and each '>' "&gt;". |
| XmlEncoding.EncodeTextPlain | XmlScript/XsText.cs:101 | A string without &, < or > is returned unchanged. |
| XmlEncoding.TextRoundTrip | XmlScript/XsText.cs:99-102 | Decoding the entities of section 4.6 of XML 1.0 gives back the original text. |
| XmlEncoding.TextReadsAsXml | XmlScript/XsText.cs:99-102 | Text without a carriage return is read back by an XML processor, line-end handling included, as the original text. |
| XmlEncoding.ReturnInTextIsNotKept | XmlScript/XsText.cs:101 | XsText.Encode leaves "a\r\nb" as it is, and an XML processor reads it as "a\nb". |
| XmlEncoding.EscapeTextHasNoAngles | XmlScript/XsText.cs:101 | The per-character escape has no angle bracket and is at least as long as its input. |
| XmlEncoding.AttributeCharsIsPerCharacter | XmlScript/XsAttribute.cs:116 | The five Replace calls on markup characters form a per-character escape. |
| XmlEncoding.EncodeAttributeIsSafe | XmlScript/XsAttribute.cs:114-117 | XsAttribute.Encode leaves no raw <, >, ' or ", with either quote entity. |
| XmlEncoding.EncodeAttributePlain | XmlScript/XsAttribute.cs:116 | A string without special characters is returned unchanged. |
| XmlEncoding.EncodeAttributeNewLine | XmlScript/XsAttribute.cs:116 | The platform newline becomes "&#10;". |
| XmlEncoding.AttributeRoundTrip | XmlScript/XsAttribute.cs:114-117 | With "&quot;", the entities of an encoded attribute value without a line feed decode back to the value. |
| XmlEncoding.AttributeReadsAsXml | XmlScript/XsAttribute.cs:114-117 | A value without line feed, carriage return and tab is read back by an XML processor, attribute-value normalization included, as the value. |
| XmlEncoding.AttributeKeepsCharOut | XmlScript/XsAttribute.cs:114-117 | XsAttribute.Encode adds no tab, carriage return or line feed that the value does not have. |
| XmlEncoding.TabInAttributeBecomesSpace | XmlScript/XsAttribute.cs:116 | XsAttribute.Encode leaves a tab raw, so an XML processor reads "a\tb" as "a b". |
| XmlEncoding.QuoteEntityAsWrittenIsUnreadable | XmlScript/XsAttribute.cs:116 | As written, a quote becomes "&quote;", which no XML reader decodes. |
| XmlEncoding.EncodingsAgreeWithoutQuote | XmlScript/XsAttribute.cs:114-117 | The encoder as written and the corrected encoder agree on every value without a quote. |
| XmlEncoding.UnknownEntity | XmlScript/XsAttribute.cs:116 | "&quote;" is not an entity of section 4.6 of XML 1.0. |
| XmlEncoding.CDataSection | XmlScript/XsCData.cs:89-93 | The output starts with "<![CDATA[" and ends with "]]>". |
| XmlEncoding.CDataVerbatim | XmlScript/XsCData.cs:89-92 | Data without "]]>" appears verbatim between the markers. |
| XmlEncoding.CDataRoundTrip | XmlScript/XsCData.cs:89 | Each "]]>" is split across two sections, so reading the sections gives back the data exactly. |
| XmlEncoding.CDataReadsAsXml | XmlScript/XsCData.cs:89-93 | Data without a carriage return is read back from the sections by an XML processor, line-end handling included, as the data. |
| XmlEncoding.EncodeTwice | XmlScript/XsText.cs:101 | Encoding "<" twice gives "&amp;lt;", which decodes to "&lt;" and not to "<". |
| JsQuoting.QuoteChar | JavaScript/JsQuote.cs:113 | The quote is '"' exactly when DoubleQuotes is set, and ' otherwise. |
| JsQuoting.Literal | JavaScript/JsQuote.cs:130 | The literal starts and ends with the quote character. |
| JsQuoting.EscapeQuotesIsReplace | JavaScript/JsQuote.cs:126 | Replacing the quote with backslash-quote puts a backslash before every quote character. |
| JsQuoting.EscapePlain | JavaScript/JsQuote.cs:126-128 | Text with no quote character and no line feed is not changed. |
| JsQuoting.EscapeNewLine | JavaScript/JsQuote.cs:128 | A platform newline becomes the four characters \n\r. |
| JsQuoting.ReadEscapedQuotes | JavaScript/JsQuote.cs:126 | Reading the escaped text up to the closing quote gives back the text when it has no backslash, line feed or carriage return. |
| JsQuoting.QuoteRoundTrip | JavaScript/JsQuote.cs:126-130 | A literal of text without backslash, line feed and carriage return reads back as that text. |
| JsQuoting.RawReturnIsUnterminated | JavaScript/JsQuote.cs:126-128 | A carriage return is left raw in the literal, so "a\rb" gives a literal that a JavaScript reader rejects. |
| VariableNames.LetterName | JavaScript/JsVariableFactory.cs:82-92 | A name has at least one character, and all of them come from LetterSet. |
| VariableNames.NameRoundTrip | JavaScript/JsVariableFactory.cs:82-92 | With distinct letters, decoding name(i) as a bijective base-n numeral gives i + 1, so the index is recovered. |
| VariableNames.NamesAreInjective | JavaScript/JsVariableFactory.cs:75-92 | Different indexes give different names. |
| VariableNames.NameLengthGrows | JavaScript/JsVariableFactory.cs:82-92 | The name length never decreases as the index grows. |
| VariableNames.DefaultNames | JavaScript/JsVariableFactory.cs:84-91 | With the default letters: 0 gives "a", 25 "z", 26 "aa", 701 "zz" and 702 "aaa". |
| VariableNames.Digit | JavaScript/JsVariableFactory.cs:90-91 | A character's digit is its position in the letter set. Characters outside the set have no digit. |
| VariableNames.JsVariableFactory.constructor | JavaScript/JsVariableFactory.cs:60-63 | A new factory starts at index 0 with the default letters. |
| VariableNames.JsVariableFactory.SetLetterSet | JavaScript/JsVariableFactory.cs:68-72 | Only the letter set changes. |
| VariableNames.JsVariableFactory.Create | JavaScript/JsVariableFactory.cs:47-58 | Create returns the compressible (name, name of the index) and increments the index by one. |
| VariableNames.CreateTwo | JavaScript/JsVariableFactory.cs:47-58 | Two consecutive variables get different short names. |
| JsPropertyLists.FindProperty | JavaScript/JsPropertyList.cs:87-129 | The search returns the first property, depth first in list order, whose rendered name is the one asked for. It is the first such property in the rendered list, and there is none exactly when no property in that list has the name. |
| JsPropertyLists.FindInIsFirstRendered | JavaScript/JsPropertyList.cs:98-129 | For every entry, the recursive search finds the first named property among what that entry adds to the render list. |
| JsPropertyLists.FindInSeqIsFirstRendered | JavaScript/JsPropertyList.cs:100-125 | For a list of entries, the search finds the first named property of their joint render list. |
| JsPropertyLists.FirstNamed | JavaScript/JsPropertyList.cs:98-129 | The reference search finds a named property of the list, and finds none exactly when no entry is named so. |
| JsPropertyLists.FirstNamedAppend | JavaScript/JsPropertyList.cs:100-125 | A search in a concatenation finds the hit in the first part, or else the hit in the second part. |
| JsPropertyLists.FindPropertyValue | JavaScript/JsPropertyList.cs:136-142 | The result is the found property's Value, or null when no property is found. |
| JsPropertyLists.PropertyNode | JavaScript/JsPropertyList.cs:149-152 | Js.Property(name, value) is a property with no layout of its own. |
| JsPropertyLists.AddedPropertyIsFound | JavaScript/JsPropertyList.cs:149-152 | After Add(name, value), the search finds the new property when no earlier property had the name. Otherwise it still finds the earlier one. |
| ExtJsHelpers.LastDot | JavaScript/ExtJs/ExtJs.cs:100 | LastIndexOf(".") gives the position of a dot with no dot after it, or -1 exactly when there is no dot. |
| ExtJsHelpers.GetNamespace | JavaScript/ExtJs/ExtJs.cs:97-107 | The result is null exactly when there is no dot. Otherwise the input is the result, a dot and a dot-free suffix. |
| ExtJsHelpers.NamespaceOfQualifiedName | JavaScript/ExtJs/ExtJs.cs:100-103 | The namespace of ns + "." + name, for a dot-free name, is ns. |
| ExtJsHelpers.LeadingDotIsEmptyNamespace | JavaScript/ExtJs/ExtJs.cs:102-103 | A name whose only dot leads it has the namespace "". |
| ExtJsHelpers.ExtJsTypeOf | JavaScript/ExtJs/ExtJs.cs:154-170 | The switch yields only "int", "float", "date", "bool" or "string". |
| ExtJsHelpers.ExtJsType | JavaScript/ExtJs/ExtJs.cs:152-171 | Int16, Int32 and Int64 give "int". Double, Float and Decimal give "float". DateTime gives "date" and Boolean gives "bool". Exactly the other names give "string". |
| ExtJsHelpers.ExtJsTypeAsWritten | JavaScript/ExtJs/ExtJs.cs:154 | The switch on Type.ToString() yields one of the five type names. |
| ExtJsHelpers.QualifiedNameIsString | JavaScript/ExtJs/ExtJs.cs:154-170 | No case of the switch has a dot, so a qualified name falls through to "string". |
| ExtJsHelpers.ExtJsTypeAsWrittenIgnoresType | JavaScript/ExtJs/ExtJs.cs:154 | As written, every type in a namespace maps to "string": System.Int32 gives "string", not "int". |
| ScriptSets.IndexIn | ScriptSet.cs:388-391 | List.IndexOf gives -1 exactly when the item is absent. Otherwise it gives the position of the first equal entry. |
| ScriptSets.RemoveFirstTakesOne | ScriptSet.cs:490-493 | Remove takes out exactly one occurrence, the first. The entries before it are unchanged, and an absent item leaves the list as it is. |
| ScriptSets.FlattenOne | ScriptSet.cs:175-186 | An object[] contributes its flattened elements, and anything else contributes itself. |
| ScriptSets.AddToRenderList | ScriptSet.cs:175-186 | The recursive method appends exactly the flattened item to dest. |
| ScriptSets.AddEach | ScriptSet.cs:179-182 | The loop over an array appends its flattened elements in order. |
| ScriptSets.AddEachProperty | JavaScript/JsPropertyList.cs:165-177 | The property-list loop appends the property-list render list of the items. |
| ScriptSets.AddPropertyToRenderList | JavaScript/JsPropertyList.cs:161-182 | JsPropertyList.AddToRenderList appends exactly what PropEntry says. |
| ScriptSets.AddElementToRenderList | XmlScript/XsElement.cs:187-200 | XsElement.AddToRenderList, with XsText taken as an XML node (the correction of Findings row 3), appends exactly what ElementEntry(true, ·) says. The source's entry is ElementEntry(false, ·). |
| ScriptSets.RenderListOf | ScriptSet.cs:157-167 | The render list depends only on the set's class and its raw items. |
| ScriptSets.RenderListStep | ScriptSet.cs:161-164 | One more raw item extends the render list by exactly that item's contribution. |
| ScriptSets.ElementListAppend | XmlScript/XsElement.cs:187-200 | An element's render list of a concatenation is the concatenation of the render lists. |
| ScriptSets.ScriptSet.ToItem | ScriptSet.cs:126-151 | The set's value has its items, layout, indents and separator. |
| ScriptSets.ScriptSet.constructor | ScriptSet.cs:113-121 | ScriptSet(layout, items) holds the items and the layout the constructor requests. |
| ScriptSets.ScriptSet.Script | Script.cs:70-87 | Script(lines) is a set with those lines and the Block default layout. |
| ScriptSets.ScriptSet.Count | ScriptSet.cs:472-475 | Count is the number of items. |
| ScriptSets.ScriptSet.IndexOf | ScriptSet.cs:388-391 | The linear search returns the first position of the item, or -1 exactly when it is absent. |
| ScriptSets.ScriptSet.Contains | ScriptSet.cs:454-457 | Contains holds exactly when the item is in the list. |
| ScriptSets.ScriptSet.Get | ScriptSet.cs:420-424 | The indexer's getter returns the entry at that position. |
| ScriptSets.ScriptSet.Put | ScriptSet.cs:426-434 | The indexer's setter replaces that entry and nothing else. |
| ScriptSets.ScriptSet.Insert | ScriptSet.cs:397-404 | The item is put at that position, and the later entries move one place on. |
| ScriptSets.ScriptSet.RemoveAt | ScriptSet.cs:410-413 | Only the entry at that position is removed. |
| ScriptSets.ScriptSet.Remove | ScriptSet.cs:490-493 | Only the first occurrence is removed. The result says whether there was one. |
| ScriptSets.ScriptSet.Clear | ScriptSet.cs:444-447 | The list becomes empty. |
| ScriptSets.ScriptSet.Add | ScriptSet.cs:499-506 | The item is appended. |
| ScriptSets.ScriptSet.AddRange | ScriptSet.cs:323-330 | The items are appended in order. |
| ScriptSets.ScriptSet.InsertRange | ScriptSet.cs:310-317 | The items are put in front, in order. |
| ScriptSets.ScriptSet.RegisterItem | ScriptSet.cs:344-360 | A duplicate name returns false and adds nothing. Otherwise the name is registered, the item appended and true returned. |
| ScriptSets.ScriptSet.TrySetLayout | ScriptItem.cs:144-167 | The set's value changes as Values.SetLayout says. |
| ScriptSets.ScriptSet.HasRenderContentInSet | ScriptSet.cs:290-302 | The early-return loop answers whether some raw item has content. That is also the set's HasRenderContent. |
| ScriptSets.ScriptSet.GetRenderList | ScriptSet.cs:157-167 | The loop hands every raw item, in order, to AddToRenderList and returns RenderList; for an element that is the corrected list of Findings row 3. |
| ScriptSets.ScriptSetWrapper.ToItem | ScriptSetWrapper.cs:119-123 | The wrapper's value has the current set as its Content. |
| ScriptSets.ScriptSetWrapper.constructor | ScriptSetWrapper.cs:66-71 | The given set becomes the content of a wrapper with that layout, Before and After. |
| ScriptSets.ScriptSetWrapper.Empty | ScriptSetWrapper.cs:94-99 | The before/after constructor installs a new empty Script as the content. |
| ScriptSets.ScriptSetWrapper.SetSet | ScriptSetWrapper.cs:119-123 | Assigning Set replaces Content and nothing else. |
| ScriptSets.ScriptSetWrapper.TrySetLayout | ScriptWrapper.cs:172-199 | A layout change cascades into ContentLayout, as Values.SetLayout says. |
| ScriptSets.ScriptSetWrapper.Count | ScriptSetWrapper.cs:258-261 | Count is the inner set's count. |
| ScriptSets.ScriptSetWrapper.IndexOf | ScriptSetWrapper.cs:173-176 | IndexOf is the inner set's IndexOf. |
| ScriptSets.ScriptSetWrapper.Contains | ScriptSetWrapper.cs:240-243 | Contains is the inner set's Contains. |
| ScriptSets.ScriptSetWrapper.Get | ScriptSetWrapper.cs:202-207 | The indexer reads the inner set. |
| ScriptSets.ScriptSetWrapper.Put | ScriptSetWrapper.cs:208-211 | The indexer writes only the inner set. |
| ScriptSets.ScriptSetWrapper.Add | ScriptSetWrapper.cs:222-225 | Only the inner set changes: the item is appended. |
| ScriptSets.ScriptSetWrapper.Insert | ScriptSetWrapper.cs:183-186 | Only the inner set changes: the item is inserted. |
| ScriptSets.ScriptSetWrapper.RemoveAt | ScriptSetWrapper.cs:192-195 | Only the inner set changes: that entry is removed. |
| ScriptSets.ScriptSetWrapper.Remove | ScriptSetWrapper.cs:276-279 | Only the inner set changes: its first occurrence is removed. |
| ScriptSets.ScriptSetWrapper.Clear | ScriptSetWrapper.cs:230-233 | Only the inner set changes: it becomes empty. |
| ScriptSets.ScriptSetWrapper.AddRange | ScriptSetWrapper.cs:141-145 | The items are appended to the inner set. |
| ScriptSets.ScriptSetWrapper.InsertRangeAsWritten | ScriptSetWrapper.cs:131-135 | As written, the call prepends two entries: 0 and the array of items. |
| ScriptSets.ScriptSetWrapper.InsertRange | ScriptSetWrapper.cs:127-135 | The items are put in front of the inner set's items, in order, as the documentation says. |
| ScriptSets.InsertRangeAsWrittenWritesZero | ScriptSetWrapper.cs:131-135 | As written, the render list gains a leading 0 before the items. |

## Left out

- Output sinks are not modelled: the Stream, TextWriter and StringBuilder overloads of Render, the Stream constructors, Flush and Close. The writer appends to a string instead. The exception for a null writer cannot arise, because the model has no null writer.
- ScriptWriter.ToString is a debugging aid, and the experimental `indentsOnOneLine` counter never affects output. Neither is modelled.
- The LayoutChanged and Rendering events are treated as having no subscribers. Each subclass's OnLayoutChanged override is modelled.
- The lock in JsVariableFactory.Create is left out, since the model is sequential.
- Format providers are left out: .NET String.Format, IFormattable and culture rules. The formatting of a scalar is a function in the settings, and a string formats as itself.
- The format provider of a ScriptWriter is a constant field, because the source has no setter for it.
- XmlConvert.EncodeName and Convert.ToBoolean are parameters of the host record. Convert.ToBoolean is a partial function, and None stands for its exception.
- The platform newline is "\n" or "\r\n".
- The XML DOM paths are not modelled: Render(XmlDocument), Render(XmlElement) and CreateXmlElement.
- The factory façades (Js, Sb, Xs, the ExtJs factory methods), the ExtJs node classes and Encryption are not modelled. Sb.Render and Sb.HasRenderContent are modelled as RenderSpec.RenderAt and Values.HasContent.
- The thin subclasses are configured nodes of the set and wrapper kinds (Values.ScriptNode, JsListNode, BlockNode, ObjectNode, ParametersNode). JsProperty is a kind of its own, because FindProperty needs its Name and Value.
- Script items are values, so aliasing and reference identity are not modelled. IndexOf, Contains and Remove use value equality, where List uses Equals (reference equality for script items).
- A layout change made while rendering is applied to the node value that is rendered and is not persisted. This covers the content offer of ScriptWrapper, the Block request of an element with child elements, the block offer of JsFunction and the ListLayout push of JsParameters. The ListLayout push happens after the parameters are written, so it affects only a later render. The one render it belongs to is modelled exactly.
- Values.ListLayoutOf: when the content of a function's parameters is not a JsList, the model reads its layout as Inline, where the source's `Parameters.List` is null and throws.
- Values.PropertiesOf: a JsObject whose content is not a JsPropertyList gives no properties, where the source throws.
- The no-argument and layout-only constructors of ScriptSetWrapper leave Set null, so every forwarding member throws. They are not modelled.
- Indents and InternalIndents are `nat`, so the negative values their public setters allow are not modelled. The indent level of the writer is an unbounded int, so the wrap-around of Int32 is not modelled.
- VariableNames.JsVariableFactory.Create requires a non-empty LetterSet; the source divides by zero otherwise. Index overflow past Int32 is not modelled.
- CopyTo, IsReadOnly and the enumerators of ScriptSet and ScriptSetWrapper are not modelled.
- The readback lemmas of XsText, XsAttribute, XsCData and JsQuote (RenderFacts.TextReadsBack, AttributeReadsBack, CDataReadsBack, QuoteReadsBack) assume no leading line break: the node is not Block, or the writer is at the start of a line. The line break itself is stated by BreakIf.
- JsQuoting.QuoteRoundTrip, JsQuoting.ReadEscapedQuotes and RenderFacts.QuoteReadsBack require text without backslash, line feed and carriage return. JsQuote escapes neither a backslash nor a lone carriage return, and a bare line feed is not the platform newline on every platform; a raw carriage return or line feed ends a JavaScript string literal (JsQuoting.RawReturnIsUnterminated).
- XmlEncoding.AttributeRoundTrip and RenderFacts.AttributeReadsBack decode entities back only for a value without a line feed, because "&#10;" stands for a whole platform newline.
- XmlEncoding.TextRoundTrip, XmlEncoding.AttributeRoundTrip, XmlEncoding.CDataRoundTrip, RenderFacts.TextReadsBack, RenderFacts.AttributeReadsBack and RenderFacts.CDataReadsBack give back the exact text through an XML processor's reading only for text without a carriage return, and attribute values only without a tab, carriage return or line feed. XsText, XsAttribute and XsCData do not encode these characters, so an XML processor turns "\r\n" and a lone "\r" into "\n" (section 2.11 of XML 1.0) and each of them in an attribute value into a space (section 3.3.3). The entity decoding alone gives the exact text back without these limits.
- The ExtJsType switch has a "Float" case, although .NET calls that type Single. The case is kept as written.
- A set that contains itself cannot be built from values, so the DEBUG Assert never throws in the model (Values.SetNeverContainsItself).
- ScriptSets.ScriptSet.Get, Put, Insert, RemoveAt and the ScriptSetWrapper forwards (Get, Put, Insert, RemoveAt) require the index to be in range (0 <= index < Count, and index <= Count for Insert). The ArgumentOutOfRangeException that List<object> throws for any other index is not modelled.
- RenderSpec.OnRenderAttribute, Rendering.OnRenderAttribute and RenderFacts.AttributeReadsBack render a quote in an attribute value as "&quot;", the correction of Findings row 2, where XsAttribute.cs:116 writes "&quote;". The source's render is RenderSpec.AttributeAsWritten. The two agree on every value whose rendering has no quote (RenderFacts.AttributeAgreesWithSource). The read-back does not hold for the source when the value has a quote.
- RenderSpec.OnRenderQuote, Rendering.OnRenderQuote, RenderSpec.OnRender, Rendering.OnRender and RenderFacts.QuoteReadsBack write one pair of quotes for a JsQuote with null Text, the correction of Findings row 4, where JsQuote.cs:114-130 writes two pairs. The source's render is RenderSpec.QuoteAsWritten. The two agree whenever Text is not null (RenderFacts.QuoteAgreesWithSource).
- Values.RenderList, ScriptSets.AddElementToRenderList, ScriptSets.ScriptSet.GetRenderList, RenderSpec.OnRenderElement, RenderSpec.ElementInner, Rendering.OnRenderElement and Rendering.ElementInner keep an XsText child of an element as it is, the correction of Findings row 3, where XsElement.cs:193-198 wraps it in a second XsText and so encodes it twice. The source's list is Values.ElementListAsWritten. The two lists agree whenever no child is an XsText (Values.ElementListsAgree). The render of a whole tree with the source's list is not modelled.
- Writer.ScriptWriter.SetIndentText empties the indent cache, the correction of Findings row 6. The class therefore never reaches the source's state in which the cache disagrees with IndentText, and every Rendering method requires a cache that agrees. The stale cache is modelled only by the functions Writer.CachedIndent and Writer.StaleIndentCache.

## Findings

| source | as written | input that shows it | evidently intended | confidence | as-written member | corrected member |
|---|---|---|---|---|---|---|
| ScriptSetWrapper.cs:131-135 | `Set.InsertRange(0, items)` binds to the `params object[]` InsertRange of ScriptSet, so it prepends the two entries 0 and the items array | InsertRange("a") on an empty wrapper gives the items [0, ["a"]], which an Inline wrapper renders as "0a" | the items put in front of the set's items, as the doc comment says | high; not executed | ScriptSets.ScriptSetWrapper.InsertRangeAsWritten | ScriptSets.ScriptSetWrapper.InsertRange |
| XmlScript/XsAttribute.cs:116 | a quote becomes "&quote;", which is no entity of section 4.6 of XML 1.0 | the value `"` is written as `&quote;`, which XML readers reject | "&quot;", which decodes back to the quote | high; not executed | XmlEncoding.QuoteEntityAsWrittenIsUnreadable | RenderFacts.AttributeReadsBack |
| XmlScript/XsElement.cs:193-198 | XsText does not declare IXmlRenderer, so an XsText child of an element is wrapped in a second XsText and encoded twice | an element holding Xs.Text("<") writes "&amp;lt;" | the text written once as "&lt;", like the other XML nodes | medium; not executed | RenderFacts.TextInElementAsWrittenIsEncodedTwice | Values.ElementRendersTextChildOnce |
| JavaScript/JsQuote.cs:114-130 | with null Text, an empty pair of quotes is written and then the literal of the empty rendering as well | `new JsQuote()` writes `''''` | one empty pair `''`, as the parameterless constructor's documentation describes | medium; not executed | RenderFacts.NullQuoteAsWrittenHasFourQuotes | RenderSpec.OnRender |
| JavaScript/ExtJs/ExtJs.cs:154 | the switch is on Type.ToString(), the namespace-qualified name, which no case matches | typeof(System.Int32) gives "string" | the switch on the type's own name, giving "int" | high; not executed | ExtJsHelpers.ExtJsTypeAsWrittenIgnoresType | ExtJsHelpers.ExtJsType |
| ScriptWriter.cs:370-374 | setting IndentText keeps the cache of indent strings, so a level built earlier keeps its old text | level 1 cached with a tab, then IndentText set to two spaces: level 1 is still written as a tab | IndentString is IndentText repeated CurrentIndentLevel times, as the property's documentation says | medium; not executed | Writer.StaleIndentCache | Writer.ScriptWriter.SetIndentText |
