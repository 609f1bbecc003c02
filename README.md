# LinkedIn-to-resume: the rendering and chat-dispatch core in Dafny

This project models the deterministic core of a tool that turns a LinkedIn profile into a
resume. The tool has four parts:

- **Profile schema.** `Experience`, `Education`, `Certification`, `Volunteer`,
  `Recommendation` and `LinkedInProfile` are records of strings, lists and optional values
  (`profile.dfy`).
- **Renderers** in `save_structured_profile`:
  - the Markdown resume, built by `markdown +=` statements (`markdown.dfy`);
  - the HTML fragment, built from f-string templates (`profile_html.dfy`);
  - the Word document. `markdown_to_docx` makes it by classifying each Markdown line by
    its prefix (`docx.dfy`, `markdown_docx.dfy`).

  `resume_formats.dfy` proves that the three outputs agree on sections, headings and list
  items. It also models saving the three files.
- **Converters and formatters:**
  - the DOCX-to-HTML paragraph converter (`docx_to_html.dfy`);
  - the profile summary and the HTML escaping of `format_response` (`response_formatter.dfy`);
  - the table of contents and the choice of output file name in `html_to_md.py`
    (`html_to_md.dfy`, with `os.path.join`/`splitext` in `paths.dfy`).
- **Chat layer:**
  - the request and response records (`chat_models.dfy`);
  - message conversion and the two layers of error wrapping in `get_chat_completion`
    (`openai_service.dfy`);
  - error-to-status mapping, tool dispatch by name, and the conversation sent back after
    tool calls in the `/chat` endpoint (`chat_routes.dfy`);
  - the `ZodType` name builders (`zod_helper.dfy`).

`strings.dfy` holds the Python string operations the code uses:

- `startswith`, `in`, `strip`, `lower`, `split`, `replace` and `join`;
- reading `split('\n')` back after `'\n'.join`.

`wrappers.dfy` holds `Option`/`Result` and Python truthiness. `None`, `""` and `[]` are
all "absent".

The code changes state in three ways: string accumulation (`markdown +=`), list building
(`append` in loops) and a search loop (the unique-suffix `while`). Each of these is a
`method` with loops and invariants, proved equal to a specification function. Everything
else is functions, with lemmas about those functions. Foreign calls are function-valued
parameters:

- the completion API (`client`);
- `json.loads` (`parseArgs`);
- the profile extractor (`extract`);
- `json.dumps` (`dumps`);
- the regular-expression post-processing of `format_response` (`post`).

## Model

| member | source | states |
|---|---|---|
| `Profile.ProfileDefaults` | app/services/linkedin_service.py:82-93 | a profile built from its seven required fields has no certifications, languages, volunteer work or recommendations |
| `Profile.DegreeLine` | app/services/linkedin_service.py:203 | the degree line starts with the degree and ends with ` in field` when the field is non-empty; otherwise it is just the degree |
| `ProfileMarkdown.ExperienceEntryLines` | app/services/linkedin_service.py:191-197 | experience `i` occupies five lines after the 9-line header, in list order: blank, `#### title at company`, `*duration*`, blank, the description or an empty line |
| `ProfileMarkdown.EducationEntryLines` | app/services/linkedin_service.py:199-205 | education `i` occupies four lines after `### Education`, in list order: blank, `#### school`, the degree line, the years line |
| `ProfileMarkdown.YearsLineEmpty` | app/services/linkedin_service.py:204 | the years line is empty exactly when the years are `None` or `""` |
| `ProfileMarkdown.RenderMarkdown` | app/services/linkedin_service.py:180-231 | the sequence of `markdown +=` statements, with every loop, produces exactly `Markdown(p)` |
| `ProfileMarkdown.AppendSection` | app/services/linkedin_service.py:207-231 | `if present:` heading plus one block per item extends the rendered lines by the section, or by nothing when absent |
| `ProfileMarkdown.AppendBlocks` | app/services/linkedin_service.py:191-197 | `for x in items: markdown += block(x)` appends the blocks of all items in order |
| `ResumeFormats.MarkdownFileStart` | app/services/linkedin_service.py:180-189 | the Markdown file's first nine lines are `# name`, blank, `## headline`, `**Location:** location`, blank, `### About`, the about text, blank, `### Experience` |
| `ResumeFormats.MarkdownFileLines` | app/services/linkedin_service.py:142 | for a profile whose fields hold no line break (`\n` or `\r`), splitting the Markdown text on `\n` gives back the rendered lines plus a final empty piece |
| `ResumeFormats.MarkdownSectionHeadings` | app/services/linkedin_service.py:185-229 | the `### ` lines are About, Experience and Education (always), then Skills, Certifications, Languages and Recommendations, each exactly when its list is non-empty, in that order |
| `ResumeFormats.MarkdownEntryHeadings` | app/services/linkedin_service.py:191-231 | there is one `#### ` line per experience, school, certification and recommendation, in list order |
| `ResumeFormats.MarkdownListItems` | app/services/linkedin_service.py:207-223 | the `- ` lines are exactly the skills followed by the languages, one per item, in order |
| `ResumeFormats.MarkdownName` | app/services/linkedin_service.py:180 | the only `# ` line carries the name |
| `ResumeFormats.MarkdownHeadline` | app/services/linkedin_service.py:182 | the only `## ` line carries the headline |
| `ResumeFormats.MarkdownIgnoresVolunteer` | app/services/linkedin_service.py:180-231 | changing the volunteer list never changes the Markdown |
| `ResumeFormats.MarkdownLinesOneLine` | app/services/linkedin_service.py:180-231 | a profile whose fields hold no line break renders to lines that hold none |
| `ResumeFormats.DocxOfMarkdown` | app/services/linkedin_service.py:142-168 | for a profile whose fields hold no line break (`\n` or `\r`), the document made from the written Markdown file is the paragraphs of the rendered lines; the final empty piece adds nothing |
| `ResumeFormats.DocxStyle` | app/services/linkedin_service.py:144-153 | for a profile whose fields hold no line break (`\n` or `\r`), the paragraphs of each heading level and of List Bullet are the Markdown lines with the matching marker, in order |
| `ResumeFormats.DocxTitleAndHeadline` | app/services/linkedin_service.py:144-147 | the document has exactly one Title paragraph, the name, and one level-1 heading, the headline |
| `ResumeFormats.DocxSectionHeadings` | app/services/linkedin_service.py:148-149 | the level-2 headings of the document are the section titles, in order |
| `ResumeFormats.DocxEntryHeadings` | app/services/linkedin_service.py:150-151 | the level-3 headings are the entry titles (experience, school, certification, recommendation), in order |
| `ResumeFormats.DocxListItems` | app/services/linkedin_service.py:152-153 | the List Bullet paragraphs are the skills followed by the languages |
| `ResumeFormats.FormatsAgreeOnSections` | app/services/linkedin_service.py:246-347 | the DOCX section headings and the HTML `<h3>` titles are the same list |
| `ResumeFormats.SaveStructuredProfile` | app/services/linkedin_service.py:173-368 | the three files are `structured_profile.md`, `.html` and `.docx` under the output directory; the DOCX content is the Markdown file read back by `markdown_to_docx` |
| `ResumeFormats.SavedFilesDistinct` | app/services/linkedin_service.py:357-365 | the three output paths are pairwise different for every output directory |
| `ProfileHtml.HtmlSectionTitles` | app/services/linkedin_service.py:236-347 | the `<h3>` title lines of the rendered fragment are About, Experience and Education, then each optional section exactly when its list is non-empty, in order |
| `ProfileHtml.SectionsPresent` | app/services/linkedin_service.py:289-347 | the sections the fragment holds are those that `SectionTitles` names, in the same order |
| `ProfileHtml.PartsTitles` | app/services/linkedin_service.py:289-347 | each `html +=` section is present exactly when its collection is non-`None` and non-empty |
| `ProfileHtml.HtmlFragmentShape` | app/services/linkedin_service.py:236-237 | the fragment opens with `<div class="profile-container">` (after the template's line break and indentation) and ends with `</div>`; there is no head or body |
| `ProfileHtml.HtmlHeaderUnescaped` | app/services/linkedin_service.py:238-244 | the name, headline and location are inserted verbatim, without escaping |
| `ProfileHtml.HtmlAboutUnescaped` | app/services/linkedin_service.py:248-250 | the about text is inserted verbatim on its own template line |
| `ProfileHtml.HtmlIgnoresVolunteer` | app/services/linkedin_service.py:236-349 | changing the volunteer list never changes the HTML |
| `MarkdownDocx.KindOf` | app/services/linkedin_service.py:144-153 | a heading classification of level `l` (0 to 3) means the line starts with `l + 1` `#`s and a space; a bullet means it starts with `- ` |
| `MarkdownDocx.ClassifyLine` | app/services/linkedin_service.py:143-168 | one line gives at most one paragraph |
| `MarkdownDocx.MarkedLineParagraph` | app/services/linkedin_service.py:144-153 | a heading or bullet line becomes exactly one paragraph of the matching style whose text is the line without its marker |
| `MarkdownDocx.OtherLineNormal` | app/services/linkedin_service.py:154-168 | a line without a heading or bullet marker becomes a Normal paragraph or nothing |
| `MarkdownDocx.MarkdownToDocx` | app/services/linkedin_service.py:142-168 | the loop over `content.split('\n')` builds exactly `DocxOf(content)` |
| `MarkdownDocx.AddLine` | app/services/linkedin_service.py:144-153 | the prefix tests add the heading of level 0 to 3 or the List Bullet paragraph, with the marker removed |
| `MarkdownDocx.AddOtherLine` | app/services/linkedin_service.py:154-168 | the italic, bold, inline-bold and plain branches, in source order, add what `ClassifyLine` says |
| `MarkdownDocx.BoldRuns` | app/services/linkedin_service.py:162-166 | the run loop adds one run per non-empty part, bold at odd positions |
| `MarkdownDocx.StyledParagraphsAreMarkedLines` | app/services/linkedin_service.py:144-153 | for any Markdown, each heading level and the bullet style hold exactly the lines with that marker, in order, marker removed |
| `MarkdownDocx.BlankLineIffNoParagraph` | app/services/linkedin_service.py:167-168 | a line gives no paragraph exactly when it is empty or whitespace only |
| `MarkdownDocx.WholeLineBoldIsItalic` | app/services/linkedin_service.py:154-159 | the italic test shadows the bold test: `**x**` becomes one italic, non-bold run of the line with its asterisks stripped |
| `MarkdownDocx.InlineRunParity` | app/services/linkedin_service.py:162-166 | every inline run is a non-empty piece of `split('**')` and is bold exactly when that piece's index is odd |
| `MarkdownDocx.InlinePartHasRun` | app/services/linkedin_service.py:162-166 | every non-empty piece of the split becomes a run with the parity-given bold flag |
| `MarkdownDocx.InlineRunsText` | app/services/linkedin_service.py:162-166 | the runs' texts concatenate to the pieces joined without separator |
| `MarkdownDocx.InlineBoldText` | app/services/linkedin_service.py:160-166 | an inline-bold paragraph reads as the line with every `**` removed |
| `DocxToHtml.ConvertDocxToHtml` | app/services/docx_to_html_service.py:14-68 | the paragraph loop returns `ConvertedHtml(paras)`: `None` when some paragraph raises, otherwise the emitted elements joined by `"\n"` |
| `DocxToHtml.AddParagraph` | app/services/docx_to_html_service.py:27-57 | one pass either raises, exactly when that paragraph fails, or appends that paragraph's elements |
| `DocxToHtml.AddListEntry` | app/services/docx_to_html_service.py:39-45 | the list branch raises on an empty `html` or an unstyled next paragraph; otherwise it appends `<ul …>`, `<li …>` and, when the list ends, `</ul>` |
| `DocxToHtml.ApplyRuns` | app/services/docx_to_html_service.py:51-55 | the run loop rewrites the text as `FormatRuns` does |
| `DocxToHtml.ElementNeverStartsWithUl` | app/services/docx_to_html_service.py:41-42 | no emitted element starts with `<ul>`, so the test at line 41 never prevents a `<ul class="skills-list">` |
| `DocxToHtml.LastNeverStartsWithUl` | app/services/docx_to_html_service.py:41 | the last element text is never `<ul>`-prefixed |
| `DocxToHtml.ConvertedNoneIff` | app/services/docx_to_html_service.py:66-68 | the result is `None` exactly when some paragraph raises |
| `DocxToHtml.AsWrittenAgreesWithoutLists` | app/services/docx_to_html_service.py:39-45 | with the lookup of line 44 as written, the result is `None` exactly when some paragraph is a list paragraph; without list paragraphs it equals the positional reading |
| `DocxToHtml.ListLookupFails` | app/services/docx_to_html_service.py:44 | a `Normal` paragraph followed by a `List Bullet` paragraph gives `None` as written, and a one-item list closed by `</ul>` when read by position |
| `DocxToHtml.BlankParagraphEmitsNothing` | app/services/docx_to_html_service.py:27-28 | a paragraph with whitespace-only text emits nothing and cannot raise |
| `DocxToHtml.ElementsEmptyIffBlank` | app/services/docx_to_html_service.py:27-57 | a paragraph emits nothing exactly when its text is blank |
| `DocxToHtml.EmittedEmptyIffBlank` | app/services/docx_to_html_service.py:26-28 | nothing has been emitted before paragraph `n` exactly when every earlier paragraph is blank |
| `DocxToHtml.LeadingListEntryFails` | app/services/docx_to_html_service.py:41 | a list paragraph preceded only by blank ones makes `html[-1]` fail, so the result is `None` |
| `DocxToHtml.ListEntryBeforeUnstyledFails` | app/services/docx_to_html_service.py:44 | a list paragraph followed by a style-less paragraph makes `.style.name` fail, so the result is `None` |
| `DocxToHtml.ElementsOpened` | app/services/docx_to_html_service.py:39-45 | within one paragraph's elements the only `<li>` is the second element, right after `<ul class="skills-list">` |
| `DocxToHtml.EmittedItemsOpened` | app/services/docx_to_html_service.py:26-57 | the elements emitted so far keep the invariant that every `<li>` directly follows a `<ul class="skills-list">`, paragraph after paragraph |
| `DocxToHtml.ListItemAfterOpen` | app/services/docx_to_html_service.py:41-43 | every `<li>` element is immediately preceded by `<ul class="skills-list">` |
| `DocxToHtml.ListEntryElements` | app/services/docx_to_html_service.py:42-45 | a list paragraph emits `<ul>`, `<li>text</li>`, and then `</ul>` exactly when it is the last paragraph or the next paragraph's style has no `list` |
| `DocxToHtml.HeadingElements` | app/services/docx_to_html_service.py:33-38 | heading paragraphs become `<h1 class="profile-name">`, `<h2 class="profile-headline">`, `<h3>` with the text unchanged |
| `DocxToHtml.UnformattedRunsKeepText` | app/services/docx_to_html_service.py:48-57 | a paragraph with no bold or italic run keeps its text |
| `DocxToHtml.WholeBoldRun` | app/services/docx_to_html_service.py:52-53 | one bold run covering the whole text wraps it in `<strong>` |
| `ResponseFormatter.EscapedHasNoMarkup` | app/services/response_formatter_service.py:16 | no `<`, `>`, `"` or `'` survives `html.escape` |
| `ResponseFormatter.EscapePlain` | app/services/response_formatter_service.py:16 | text without `&`, `<`, `>`, `"` and `'` is left unchanged |
| `ResponseFormatter.UnescapeEscape` | app/services/response_formatter_service.py:16 | reading the five entities back restores the input, so escaping loses nothing |
| `ResponseFormatter.FormatResponse` | app/services/response_formatter_service.py:14-73 | the post-processing receives the escaped text; on failure the caller gets the partially transformed `content`, not the input |
| `ResponseFormatter.FailedFormatIsEscaped` | app/services/response_formatter_service.py:71-73 | when the rewrites fail before changing anything, the result is the escaped input: it has no markup characters and unescapes to the input |
| `ResponseFormatter.SummarySectionHeadings` | app/services/response_formatter_service.py:84-118 | there is one section per present title (Basic Information iff `name`, `headline` or `location` is a key; About, Experience, Education, Skills iff truthy), each starting with its `### ` heading, in that order |
| `ResponseFormatter.ExperienceLineCount` | app/services/response_formatter_service.py:101-104 | the experience list has one line per entry plus one per entry that has a `duration` key |
| `ResponseFormatter.ExperienceLinesAppend` | app/services/response_formatter_service.py:101-104 | the lines of two consecutive runs of entries are the first run's lines followed by the second's |
| `ResponseFormatter.ExperienceEntryPlacement` | app/services/response_formatter_service.py:101-104 | entry i's `- **title** at company` line comes right after the earlier entries' lines, followed by `  duration` exactly when it has a `duration` key, and the next entry starts right after |
| `ResponseFormatter.SkillLinesShape` | app/services/response_formatter_service.py:118 | the skills section has one `- skill` line per skill, in order |
| `ResponseFormatter.CollectExperience` | app/services/response_formatter_service.py:100-105 | the experience loop succeeds exactly when every entry has `title` and `company`, and then yields `ExperienceItemLines` |
| `ResponseFormatter.CollectEducation` | app/services/response_formatter_service.py:109-114 | the education loop succeeds exactly when every entry has `degree` and `school`, and then yields `EducationItemLines` |
| `ResponseFormatter.CollectSections` | app/services/response_formatter_service.py:81-118 | the `sections.append` statements succeed exactly when no entry key is missing, and then build `SummarySections` |
| `ResponseFormatter.AppendSection` | app/services/response_formatter_service.py:95-96 | a section is appended as `### title\nbody` exactly when it is present |
| `ResponseFormatter.CollectBasic` | app/services/response_formatter_service.py:85-91 | one bolded line per present key among `name`, `headline` and `location`, in that order |
| `ResponseFormatter.CollectEntries` | app/services/response_formatter_service.py:99-114 | the experience and education loops give their line lists, or report a missing key |
| `ResponseFormatter.CollectSkills` | app/services/response_formatter_service.py:118 | the generator gives `- skill` for each skill |
| `ResponseFormatter.FormatProfileSummary` | app/services/response_formatter_service.py:76-126 | the result is the sections joined by `"\n\n"` and formatted, or `str(profile_data)` when a key is missing |
| `HtmlToMarkdown.LeadingHashes` | html_to_md.py:170 | the greedy `#+` takes exactly the leading run of `#` |
| `HtmlToMarkdown.ParseWrittenHeading` | html_to_md.py:170-179 | a line of `n` `#`s, a space and a stripped title is read as a level-`n` heading with that title |
| `HtmlToMarkdown.AnchorChars` | html_to_md.py:182 | an anchor contains only word characters, white space other than space, and `-`; it never contains a space |
| `HtmlToMarkdown.TocEntries` | html_to_md.py:177-184 | one entry per heading, in document order |
| `HtmlToMarkdown.TocKeepsText` | html_to_md.py:172-173 | the input is always an unchanged suffix of the result, and the result equals the input exactly when there are no headings |
| `HtmlToMarkdown.TocStart` | html_to_md.py:175-186 | with headings, the result starts with `## Table of Contents\n`, a line break, and the first entry |
| `HtmlToMarkdown.GenerateTableOfContents` | html_to_md.py:163-189 | the function returns `TableOfContents(text)` |
| `HtmlToMarkdown.CollectTocLines` | html_to_md.py:175-184 | the loop collects the header line, then `TocEntry` of each heading (indent of two spaces per level below one, `- [title](#anchor)`) |
| `HtmlToMarkdown.BaseFilename` | html_to_md.py:196-199 | the custom name is used when custom naming is on and the name is non-empty; otherwise the generated one |
| `HtmlToMarkdown.CandidateInjective` | html_to_md.py:210 | different counters give different `root_k+ext` paths |
| `HtmlToMarkdown.CandidatesBound` | html_to_md.py:209-211 | at most as many candidates as there are existing files can be taken, so the loop ends |
| `HtmlToMarkdown.OutputPath` | html_to_md.py:203-214 | overwrite mode, or a free base path, keeps the base path; otherwise the result is `root_k+ext` for the smallest free `k >= 1`, and it is not an existing file |
| `HtmlToMarkdown.HtmlFilename` | html_to_md.py:223-228 | an HTML name ending in `.html` is returned exactly when `save_raw_html` is set |
| `HtmlToMarkdown.HandleFileWrite` | html_to_md.py:191-228 | the Markdown path is chosen as `OutputPath` chooses it from the custom or generated base name: the base path in overwrite mode or when it is free, otherwise `root_k+ext` for the smallest free `k >= 1`; the HTML name follows from it |
| `Paths.PathJoin` | html_to_md.py:203 | `os.path.join` ends with its second argument |
| `Paths.PathJoinRelative` | html_to_md.py:203 | a relative name is appended to the directory with one `/` in between |
| `Paths.SplitExt` | html_to_md.py:207 | `splitext` splits the path into root and extension that concatenate to it |
| `Paths.SplitExtShape` | html_to_md.py:207 | the extension is empty or a dot followed by no dot and no `/` |
| `Paths.SplitExtOfName` | html_to_md.py:224 | splitting `name + ext` gives back `name` and `ext` |
| `ChatRoutes.HandleChatError` | app/api/routes/chat.py:23-49 | 503 exactly for model-not-available and connection errors; 429 exactly for rate limit; 500 for a plain `ChatError` or anything else; model-not-available and plain errors carry their own message; a connection error, a rate-limit error and any other exception get the fixed details "Service temporarily unavailable. Please try again later.", "Rate limit exceeded. Please try again later." and "An unexpected error occurred" |
| `ChatRoutes.ExecuteToolCall` | app/api/routes/chat.py:51-74 | an unknown name yields `Unknown tool: <name>`; success means the known tool, parsed arguments with all three keys, and the extractor's result |
| `ChatRoutes.ToolFailures` | app/api/routes/chat.py:50-74 | a parse error, a missing `email`, `password` or `profile_url` (the first one missing, as `'key'`) and an extractor failure are reported with the exception text; an extractor result, `None` included, is a success carrying it |
| `ChatRoutes.ToolMessagesShape` | app/api/routes/chat.py:100-113 | when no call fails there is one tool message per call, in order, with that call's id and serialised data |
| `ChatRoutes.ToolMessagesFirstFailure` | app/api/routes/chat.py:100-104 | a failure is the error of the first failing call; all calls before it succeed |
| `ChatRoutes.FailureStops` | app/api/routes/chat.py:103-104 | once a call has failed, later calls do not change the outcome |
| `ChatRoutes.ChatErrorsAre500` | app/api/routes/chat.py:119-125 | every error the endpoint answers with has status 500, because completion errors arrive re-wrapped |
| `ChatRoutes.ToolFailureAnswer` | app/api/routes/chat.py:103-104 | a failing tool is answered with 500 and `Tool call failed: <error>` |
| `ChatRoutes.Chat` | app/api/routes/chat.py:76-125 | the endpoint returns `ChatOutcome`: the first response when there are no tool calls; otherwise the second completion over the request messages, the assistant message and the tool messages |
| `ChatRoutes.RunToolCalls` | app/api/routes/chat.py:94-113 | the loop appends the tool messages to the base list, or stops at the first failure |
| `OpenAiService.ApiMessageOf` | app/services/openai_service.py:60-64 | a converted message carries role and content, plus `tool_call_id` exactly when it is truthy |
| `OpenAiService.ApiMessagesOf` | app/services/openai_service.py:60-64 | one converted message per input message, in order |
| `OpenAiService.ApiMessages` | app/services/openai_service.py:34-64 | the developer message comes first, then every input message in order |
| `OpenAiService.ConvertMessages` | app/services/openai_service.py:34-64 | the append loop builds `ApiMessages` |
| `OpenAiService.ToolCallsOf` | app/services/openai_service.py:81-91 | one `ToolCall` per returned call, in order |
| `OpenAiService.ReplyMessage` | app/services/openai_service.py:79-100 | role `assistant`; content `""` when missing; `tool_calls` is `None` exactly when none or an empty list was returned |
| `OpenAiService.ReplyToolCalls` | app/services/openai_service.py:82-90 | each returned tool call keeps its id, type, name and arguments, in order |
| `OpenAiService.InnerErrorClass` | app/services/openai_service.py:102-114 | an API error becomes model-not-available exactly when its lower-cased text contains `model not found`; every other failure is a plain `ChatError`; the message ends with the original text |
| `OpenAiService.CompletionErrorsArePlain` | app/services/openai_service.py:116-118 | callers only see plain `ChatError`s beginning `Chat service error: ` |
| `OpenAiService.CompletionReply` | app/services/openai_service.py:66-100 | the completion succeeds exactly when the client replies, and then answers with an assistant message and default response fields |
| `OpenAiService.GetChatCompletion` | app/services/openai_service.py:27-118 | the method returns `Completion(...)` |
| `ChatModels.ParseRole` | app/models/chat.py:12 | an accepted role name is the name of the role it is read as |
| `ChatModels.ParseRoleName` | app/models/chat.py:12 | each of the five role names is accepted and read back as its role |
| `ChatModels.Defaults` | app/models/chat.py:4-27 | `type` defaults to `"function"`; `tool_calls`, `tool_call_id`, `name`, `tool_outputs` and `profile_data` default to `None`; `requires_tool` defaults to false |
| `ZodHelper.ZString` | zod_helper.py:10-11 | `z.string()` is named `string` |
| `ZodHelper.ZArray` | zod_helper.py:14-15 | `z.array(t)` is named `array<` + t's name + `>` |
| `ZodHelper.ZObject` | zod_helper.py:18-19 | `z.object(schema)` is named `object` whatever the schema |
| `ZodHelper.ZOptional` | zod_helper.py:22-23 | `z.optional(t)` is named `optional<` + t's name + `>` |
| `ZodHelper.ZodResponseFormat` | zod_helper.py:25-26 | the format is `json_object` with the schema; the name is dropped |
| `ZodHelper.ParseBuild` | zod_helper.py:8-23 | every type name the constructors build reads back as the shape it was built from |
| `ZodHelper.ParseArray` | zod_helper.py:14-15 | an `array<...>` name reads back as an array of whatever its inside reads as |
| `ZodHelper.ParseOptional` | zod_helper.py:22-23 | an `optional<...>` name reads back as an optional of whatever its inside reads as |
| `ZodHelper.BuildInjective` | zod_helper.py:8-23 | different shapes get different type names |

## Left out

- Browser driving in `linkedin_highlight_and_extract` and `linkedin_to_markdown.py`: login, the challenge wait, sleeps and script execution are calls into a browser. The extractor is the `extract` parameter of the chat layer.
- `structure_profile_data` and the completion API call: these are network calls. The completion API is the `client` parameter; the structuring call is not modelled.
- File I/O: `makedirs`, file writes, `Document.save`, reading the Markdown file back, and writing the converted HTML. `SaveStructuredProfile` returns the three paths and contents instead of writing them. The file read by `markdown_to_docx` is taken to be the text just written. Python reads it in text mode, which turns `\r` and `\r\n` into `\n`; the lemmas about the document therefore ask for fields without `\r` as well as without `\n`.
- python-docx internals. A document is a sequence of paragraph records: a style plus runs with bold and italic flags. `doc.paragraphs.index(para)` in the DOCX-to-HTML converter is modelled by position.
- `DocxWatcher`, `start_watcher` and `convert_existing_files`: filesystem events and an endless sleep loop.
- `ResumeStyle`: it is unused and holds floating-point values.
- The rest of `html_to_md.py`:
  - `fetch_html` and `convert_html_to_markdown` call `requests` and `html2text`;
  - the prompts, `run_cli` and `print_banner` are interactive I/O;
  - `is_valid_url` relies on `urlparse`;
  - `generate_filename_from_url` reads the clock. Its result is the `generated` input of `HandleFileWrite`.
- `os.path.exists` is the `existing` set of paths.
- HtmlToMarkdown.Headings: headings are read line by line, as a line of `#`s followed by white space and text. Python's `\s+` can also cross a line break, joining a bare `#` line to the next line; that case is not modelled. `\w` and `.lower()` are modelled on ASCII; Unicode word characters and case mappings are not. White space (`\s`, `.strip()`) is the full set Python's `str.isspace` accepts.
- `format_response` after `html.escape`: the regular-expression rewrites, the style wrapper and BeautifulSoup's `prettify` are the opaque `post` parameter. It returns the formatted text, or the `content` held when it raised.
- `get_chat_completion`: the long developer prompt is the `instructions` parameter. The settings object (model name, API key) is the `model` parameter. `LINKEDIN_TOOLS` and `tool_choice` are not modelled.
- `test_completion`, `health_check`, the FastAPI application, CORS, templates and `get_settings` are web and configuration plumbing.
- `ChatRoutes.ExecuteToolCall`: the JSON of the arguments is taken as a map of strings. A non-string argument value is not modelled.
- `profile.dict()` and `json.dumps` are the `dumps` parameter.
- ResumeFormats.DocxTitleAndHeadline: stated only for profiles whose fields hold no line break and whose free-text lines (about, descriptions, degree lines, recommendation texts) do not begin with a heading or bullet marker. Otherwise those texts create extra headings or bullets in the document.
- ResumeFormats.DocxSectionHeadings: same restriction as `DocxTitleAndHeadline`.
- ResumeFormats.DocxEntryHeadings: same restriction as `DocxTitleAndHeadline`.
- ResumeFormats.DocxListItems: same restriction as `DocxTitleAndHeadline`.
- ResumeFormats.FormatsAgreeOnSections: same restriction as `DocxTitleAndHeadline`. The HTML side is read from the template lines before field values are spliced in.
- ResumeFormats.MarkdownSectionHeadings: stated over the rendered lines, for profiles whose free-text lines do not begin with a heading or bullet marker.
- ResumeFormats.MarkdownEntryHeadings: stated over the rendered lines, for profiles whose free-text lines do not begin with a heading or bullet marker.
- ResumeFormats.MarkdownListItems: stated over the rendered lines, for profiles whose free-text lines do not begin with a heading or bullet marker.
- ResumeFormats.MarkdownName: stated over the rendered lines, for profiles whose free-text lines do not begin with a heading or bullet marker.
- ResumeFormats.MarkdownHeadline: stated over the rendered lines, for profiles whose free-text lines do not begin with a heading or bullet marker.
- ResumeFormats.MarkdownFileStart: stated for profiles whose fields hold no line break, since a line break in a field splits the file's lines differently.
- ProfileHtml.HtmlSectionTitles: titles are counted over the rendered template lines. A field value holding a line break would split a physical line of the fragment.
- DocxToHtml.ConvertDocxToHtml: the lookup `doc.paragraphs.index(para)` at line 44 is read as the position of `para`. As written it fails: `doc.paragraphs` builds new paragraph objects at each access, and they compare by identity, so every list paragraph that gets past `html[-1]` raises `ValueError` and the result is `None` (see Findings). This rests on python-docx's classes, which are not part of this model.

## Findings

| source | as written | input that shows it | evidently intended | confidence | as-written member | corrected member |
|---|---|---|---|---|---|---|
| app/services/docx_to_html_service.py:44 | `doc.paragraphs.index(para)` looks `para` up in a freshly built list of paragraph objects that compare by identity, so it raises `ValueError` and every list paragraph makes the converter return `None` | a `Normal` paragraph "About" followed by a `List Bullet` paragraph "Python" | the paragraph after `para`, by position: the list is closed by `</ul>` when it is the last paragraph or the next style has no `list` | medium; not executed; rests on python-docx's paragraph classes | `DocxToHtml.ListLookupFails` | `DocxToHtml.ConvertDocxToHtml` |
