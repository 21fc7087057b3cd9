/** `readContextFile` and `generateSummary`: how the context file is
    read, how the meeting details are rendered, and which two messages
    are sent to the chat model. mammoth, pdf-parse, `fs.readFileSync`,
    `JSON.parse`, `path.extname` and the chat completion call are
    oracles whose outcomes are passed in. */
module Summary {
  import opened Outcomes
  import opened JsStrings

  /** The three branches of `readContextFile`. */
  datatype ContextKind = Docx | Pdf | PlainText

  /** Dispatch on `path.extname(contextFilePath).toLowerCase()`. */
  function ContextKindOf(ext: string): (k: ContextKind)
    ensures k == Docx <==> LowerAscii(ext) == ".docx"
    ensures k == Pdf <==> LowerAscii(ext) == ".pdf"
    ensures k == PlainText <==> LowerAscii(ext) != ".docx" && LowerAscii(ext) != ".pdf"
  {
    var lower := LowerAscii(ext);
    if lower == ".docx" then Docx else if lower == ".pdf" then Pdf else PlainText
  }

  /** An accepted `application/msword` upload named `.doc` is neither
      docx nor pdf: it is read as UTF-8 text. */
  lemma DocIsReadAsText()
    ensures ContextKindOf(".doc") == PlainText
  {
    assert LowerAscii(".doc") == ".doc";
  }

  /** Upper-case extensions take the same branch. */
  lemma UpperCaseExtensions()
    ensures ContextKindOf(".DOCX") == Docx && ContextKindOf(".PDF") == Pdf
  {
    assert LowerAscii(".DOCX") == ".docx";
    assert LowerAscii(".PDF") == ".pdf";
  }

  /** How each reader would end for the file at hand: mammoth's
      `result.value`, pdf-parse's `result.text` (after `readFileSync`),
      or the file read as UTF-8, or the error it throws. */
  datatype ContextReaders = ContextReaders(docx: Result<string>, pdf: Result<string>, text: Result<string>)

  const ContextErrorPrefix: string := "Error reading context file: "

  /** How the reader the extension selects ends. */
  function SelectedRead(ext: string, readers: ContextReaders): Result<string>
  {
    match ContextKindOf(ext)
    case Docx => readers.docx
    case Pdf => readers.pdf
    case PlainText => readers.text
  }

  /** `readContextFile(path)`: the trimmed text of the branch the
      extension selects; a failure is returned as text, never thrown. */
  function ReadContextFile(ext: string, readers: ContextReaders): (content: string)
    ensures SelectedRead(ext, readers).Ok? ==> content == Trim(SelectedRead(ext, readers).value)
    ensures SelectedRead(ext, readers).Err? ==>
      content == ContextErrorPrefix + SelectedRead(ext, readers).message
  {
    var read := SelectedRead(ext, readers);
    if read.Ok? then Trim(read.value) else ContextErrorPrefix + read.message
  }

  /** The fields of the parsed `generalInfo` object, each as the text
      its `${…}` interpolation produces (`undefined` for a missing
      field). */
  datatype GeneralData = GeneralData(
    meetingDate: string, meetingLocation: string, participants: string,
    absentees: string, meetingPurpose: string, confidentiality: string)

  /** The labels of the six detail lines, in the order the block
      lists them. */
  const DetailLabels: seq<string> :=
    ["Datum: ", "Locatie: ", "Deelnemers: ", "Afwezigen: ",
     "Doel van het gesprek: ", "Vertrouwelijkheid: "]

  /** The fields in the order their lines come. */
  function DetailFields(d: GeneralData): (fields: seq<string>)
    ensures |fields| == 6 && fields[0] == d.meetingDate && fields[5] == d.confidentiality
  {
    [d.meetingDate, d.meetingLocation, d.participants, d.absentees, d.meetingPurpose, d.confidentiality]
  }

  /** The seven lines of the meeting-details block, without their
      newlines: the header, then each label followed by its field. */
  function GeneralInfoLines(d: GeneralData): (ls: seq<string>)
    ensures |ls| == 7 && ls[0] == "Algemene Gegevens:"
    ensures forall k :: 1 <= k < 7 ==> ls[k] == DetailLabels[k - 1] + DetailFields(d)[k - 1]
  {
    ["Algemene Gegevens:",
     "Datum: " + d.meetingDate,
     "Locatie: " + d.meetingLocation,
     "Deelnemers: " + d.participants,
     "Afwezigen: " + d.absentees,
     "Doel van het gesprek: " + d.meetingPurpose,
     "Vertrouwelijkheid: " + d.confidentiality]
  }

  /** The template literal built from the parsed object: each of the
      seven lines followed by a newline. The block starts with its
      header line and ends with a newline. */
  function GeneralInfoTemplate(d: GeneralData): (r: string)
    ensures |r| >= 19 && r[..19] == "Algemene Gegevens:\n"
    ensures EndsWith(r, "\n")
  {
    Terminated(GeneralInfoLines(d), "\n")
  }

  lemma TemplateIsJoinedLines(d: GeneralData)
    ensures GeneralInfoTemplate(d) == Join(GeneralInfoLines(d) + [""], "\n")
  {
    JoinTerminated(GeneralInfoLines(d), "\n");
  }

  /** When no field holds a newline, the block reads back, line by
      line, as the header and the six labelled fields in their fixed
      order, each line ended by a newline. */
  lemma TemplateSplitsIntoLabelledLines(d: GeneralData)
    requires '\n' !in d.meetingDate && '\n' !in d.meetingLocation && '\n' !in d.participants
    requires '\n' !in d.absentees && '\n' !in d.meetingPurpose && '\n' !in d.confidentiality
    ensures Split(GeneralInfoTemplate(d), '\n') == GeneralInfoLines(d) + [""]
  {
    TemplateIsJoinedLines(d);
    LinesHaveNoNewline(d);
    SplitJoin(GeneralInfoLines(d) + [""], '\n');
  }

  lemma LinesHaveNoNewline(d: GeneralData)
    requires '\n' !in d.meetingDate && '\n' !in d.meetingLocation && '\n' !in d.participants
    requires '\n' !in d.absentees && '\n' !in d.meetingPurpose && '\n' !in d.confidentiality
    ensures var ls := GeneralInfoLines(d) + [""];
      forall k :: 0 <= k < |ls| ==> '\n' !in ls[k]
  {
    var ls := GeneralInfoLines(d) + [""];
    forall k | 0 <= k < |ls| ensures '\n' !in ls[k] {
      if 0 < k < 7 {
        assert '\n' !in DetailLabels[k - 1];
      }
    }
  }

  /** `generalInfoContent`: empty when `generalInfo` is missing or empty;
      the raw value verbatim when `JSON.parse` (or reading its fields)
      throws; otherwise the template. */
  function GeneralInfoContent(generalInfo: Option<string>, parsed: Option<GeneralData>): (r: string)
    ensures generalInfo.None? || generalInfo.value == "" ==> r == ""
    ensures generalInfo.Some? && generalInfo.value != "" && parsed.None? ==> r == generalInfo.value
    ensures generalInfo.Some? && generalInfo.value != "" && parsed.Some? ==>
      r == GeneralInfoTemplate(parsed.value) && r[..19] == "Algemene Gegevens:\n"
  {
    if generalInfo.None? || generalInfo.value == "" then ""
    else if parsed.None? then generalInfo.value
    else GeneralInfoTemplate(parsed.value)
  }

  datatype Message = Message(role: string, content: string)

  const UserPrefix: string := "Hier is de transcriptie. Maak een verslag:\n"

  /** The fixed instructions about HTML output that close the system
      message. */
  const HtmlInstruction: string :=
    ". Genereer in HTML zonder onnodige tags bovenaan(gebruik HTML dus alleen voor de kopjes etc.) en zonder '''html bovenaan"

  const GeneralLabel: string := "\nGebruik de volgende algemene gegevens: "
  const ContextLabel: string := "\nGebruik deze context (indien aanwezig): "

  /** What follows the system prompt in the system message: the meeting
      details and the context, each after its label, then the HTML
      instructions. */
  function SystemTail(generalInfoContent: string, contextContent: string): (tail: string)
    ensures var g := |GeneralLabel|;
      var c := g + |generalInfoContent| + |ContextLabel|;
      |tail| == c + |contextContent| + |HtmlInstruction| &&
      tail[..g] == GeneralLabel && tail[g..g + |generalInfoContent|] == generalInfoContent &&
      tail[g + |generalInfoContent|..c] == ContextLabel && tail[c..c + |contextContent|] == contextContent &&
      tail[c + |contextContent|..] == HtmlInstruction
  {
    GeneralLabel + generalInfoContent + ContextLabel + contextContent + HtmlInstruction
  }

  lemma SliceAfterPrefix(p: string, t: string, i: int, j: int)
    requires 0 <= i <= j <= |t|
    ensures (p + t)[..|p|] == p && (p + t)[|p|..] == t
    ensures (p + t)[|p| + i..|p| + j] == t[i..j]
  {
  }

  /** The `messages` array: exactly two, system then user. The system
      message is the system prompt, the meeting details after their
      label, the context after its label, and the HTML instructions;
      the user message is the fixed request followed by the transcript. */
  function SummaryMessages(systemPrompt: string, generalInfoContent: string, contextContent: string,
                           transcriptionText: string): (ms: seq<Message>)
    ensures |ms| == 2
    ensures ms[0].role == "system" && ms[1].role == "user"
    ensures |ms[0].content| >= |systemPrompt| && ms[0].content[..|systemPrompt|] == systemPrompt
    ensures ms[0].content[|systemPrompt|..] == SystemTail(generalInfoContent, contextContent)
    ensures |ms[1].content| >= |UserPrefix| && ms[1].content[..|UserPrefix|] == UserPrefix
    ensures ms[1].content[|UserPrefix|..] == transcriptionText
  {
    var sys := systemPrompt + SystemTail(generalInfoContent, contextContent);
    SliceAfterPrefix(systemPrompt, SystemTail(generalInfoContent, contextContent), 0, 0);
    [Message("system", sys), Message("user", UserPrefix + transcriptionText)]
  }

  /** The system message carries the meeting details and the context
      verbatim, each right after its label. */
  lemma SystemMessageCarriesDetails(systemPrompt: string, generalInfoContent: string, contextContent: string,
                                    transcriptionText: string)
    ensures var sys := SummaryMessages(systemPrompt, generalInfoContent, contextContent, transcriptionText)[0].content;
      var g := |systemPrompt| + |GeneralLabel|;
      var c := g + |generalInfoContent| + |ContextLabel|;
      |sys| >= c + |contextContent| &&
      sys[g - |GeneralLabel|..g] == GeneralLabel && sys[g..g + |generalInfoContent|] == generalInfoContent &&
      sys[c - |ContextLabel|..c] == ContextLabel && sys[c..c + |contextContent|] == contextContent
  {
    var tail := SystemTail(generalInfoContent, contextContent);
    var g := |GeneralLabel|;
    var c := g + |generalInfoContent| + |ContextLabel|;
    SliceAfterPrefix(systemPrompt, tail, 0, g);
    SliceAfterPrefix(systemPrompt, tail, g, g + |generalInfoContent|);
    SliceAfterPrefix(systemPrompt, tail, c - |ContextLabel|, c);
    SliceAfterPrefix(systemPrompt, tail, c, c + |contextContent|);
  }

  /** What the summary step depends on besides its arguments. */
  datatype SummaryEnv = SummaryEnv(
    systemPrompt: Result<string>,              // readFileSync('systemPrompt.txt')
    contextExt: string,                        // path.extname(contextFilePath)
    contextReaders: ContextReaders,
    parsedGeneralInfo: Option<GeneralData>,    // JSON.parse(generalInfo), None when it throws
    completion: seq<Message> -> Result<string>) // the chat completion's message content

  const SystemPromptNotFound: string := "System prompt not found"
  const SummaryFailed: string := "Failed to generate summary"

  /** The context text handed to the system message: "" without a
      context file, otherwise what `readContextFile` returns. */
  function ContextContent(contextFilePath: Option<string>, env: SummaryEnv): (content: string)
    ensures contextFilePath.None? || contextFilePath.value == "" ==> content == ""
    ensures contextFilePath.Some? && contextFilePath.value != "" ==>
      content == ReadContextFile(env.contextExt, env.contextReaders)
  {
    if contextFilePath.Some? && contextFilePath.value != "" then ReadContextFile(env.contextExt, env.contextReaders)
    else ""
  }

  /** `generateSummary(transcriptionText, instruction, contextFilePath,
      generalInfo)`. A missing system prompt rejects with 'System
      prompt not found'; a failed completion with 'Failed to generate
      summary'; otherwise the model's reply. The instruction is accepted
      and never used. */
  function GenerateSummary(transcriptionText: string, instruction: string, contextFilePath: Option<string>,
                           generalInfo: Option<string>, env: SummaryEnv): (r: Result<string>)
    ensures env.systemPrompt.Err? ==> r == Err(SystemPromptNotFound)
    ensures env.systemPrompt.Ok? ==>
      var sent := SummaryMessages(env.systemPrompt.value,
                                  GeneralInfoContent(generalInfo, env.parsedGeneralInfo),
                                  ContextContent(contextFilePath, env), transcriptionText);
      (env.completion(sent).Ok? ==> r == env.completion(sent)) &&
      (env.completion(sent).Err? ==> r == Err(SummaryFailed))
  {
    if env.systemPrompt.Err? then Err(SystemPromptNotFound)
    else
      var contextContent := ContextContent(contextFilePath, env);
      var generalInfoContent := GeneralInfoContent(generalInfo, env.parsedGeneralInfo);
      var messages := SummaryMessages(env.systemPrompt.value, generalInfoContent, contextContent, transcriptionText);
      var completion := env.completion(messages);
      if completion.Err? then Err(SummaryFailed) else completion
  }

  /** The `instruction` argument has no effect on the summary. */
  lemma InstructionIsIgnored(transcriptionText: string, i1: string, i2: string, contextFilePath: Option<string>,
                             generalInfo: Option<string>, env: SummaryEnv)
    ensures GenerateSummary(transcriptionText, i1, contextFilePath, generalInfo, env)
         == GenerateSummary(transcriptionText, i2, contextFilePath, generalInfo, env)
  {
  }

  /** A context file that cannot be read, whichever reader the
      extension selects, does not fail the summary: the error text is
      sent as the context, after its label in the system message, and
      the summary succeeds exactly when the completion does. */
  lemma ContextReadErrorIsNotFatal(transcriptionText: string, instruction: string, contextFilePath: string,
                                   generalInfo: Option<string>, env: SummaryEnv)
    requires contextFilePath != "" && env.systemPrompt.Ok?
    requires SelectedRead(env.contextExt, env.contextReaders).Err?
    ensures var errorText := ContextErrorPrefix + SelectedRead(env.contextExt, env.contextReaders).message;
      var generalInfoContent := GeneralInfoContent(generalInfo, env.parsedGeneralInfo);
      var sent := SummaryMessages(env.systemPrompt.value, generalInfoContent, errorText, transcriptionText);
      var c := |env.systemPrompt.value| + |GeneralLabel| + |generalInfoContent| + |ContextLabel|;
      sent[0].content[c..c + |errorText|] == errorText &&
      (GenerateSummary(transcriptionText, instruction, Some(contextFilePath), generalInfo, env).Ok? <==>
       env.completion(sent).Ok?)
  {
    var errorText := ContextErrorPrefix + SelectedRead(env.contextExt, env.contextReaders).message;
    ContextErrorIsContent(contextFilePath, env);
    var generalInfoContent := GeneralInfoContent(generalInfo, env.parsedGeneralInfo);
    SystemMessageCarriesDetails(env.systemPrompt.value, generalInfoContent, errorText, transcriptionText);
    SummaryWithContext(transcriptionText, instruction, contextFilePath, generalInfo, env, errorText);
  }

  /** A context file whose reader fails is sent as its error text. */
  lemma ContextErrorIsContent(contextFilePath: string, env: SummaryEnv)
    requires contextFilePath != "" && SelectedRead(env.contextExt, env.contextReaders).Err?
    ensures ContextContent(Some(contextFilePath), env) ==
      ContextErrorPrefix + SelectedRead(env.contextExt, env.contextReaders).message
  {
  }

  /** Once the context file's content is known, the summary succeeds
      exactly when the completion of the messages carrying it does. */
  lemma SummaryWithContext(transcriptionText: string, instruction: string, contextFilePath: string,
                           generalInfo: Option<string>, env: SummaryEnv, content: string)
    requires env.systemPrompt.Ok? && ContextContent(Some(contextFilePath), env) == content
    ensures var sent := SummaryMessages(env.systemPrompt.value, GeneralInfoContent(generalInfo, env.parsedGeneralInfo),
                                        content, transcriptionText);
      GenerateSummary(transcriptionText, instruction, Some(contextFilePath), generalInfo, env).Ok? <==>
      env.completion(sent).Ok?
  {
  }
}
