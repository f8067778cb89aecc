# Prep Master analysis kernel in Dafny

Prep Master is a Streamlit speech coach (`app.py`). The user uploads a recording and picks a
purpose: investor pitch, job interview, academic talk or team talk. The app then:

- has the recording transcribed;
- measures the speaking rate in words per minute;
- asks a chat model for two reports, one on delivery and tone and one on logic;
- labels the rate slow, appropriate or fast.

This project models the part of that pipeline that can be stated exactly. That part has four pieces.

- **Words** (`words.dfy`) covers `len(transcript.split())`.
  - Whitespace is exactly what Python's `str.isspace` accepts.
  - A word is a maximal run of non-whitespace characters.
  - The count is proved equal to an independent, position-by-position count of the places where a word begins.
  - Splitting is proved to lose only whitespace.
  - The count is bounded by the transcript length.
- **Rate** (`rate.dfy`) covers `round(word_count / total_time_minutes) if total_time_minutes > 0 else 0`.
  - The clip length is an integer number of milliseconds, so the rate is the exact fraction `words * 60000 / ms`, rounded the way Python's `round` does: to the nearest integer, with ties going to the even one.
  - Rounding is characterised by two postconditions.
  - Lemmas prove that the rounded value is the nearest integer, that it is the only integer meeting those postconditions, and that it is monotone.
- **Prompts** (`prompts.dfy`) covers the two prompt templates and their `.format` calls.
  - A template is a sequence of literal text and named placeholders. Its Korean text is kept verbatim.
  - Rendering is one pass that replaces each placeholder by its argument.
  - Rendering fails, as Python's KeyError does, exactly when a placeholder has no argument.
  - Lemmas give the placeholder counts of each template: 4, 1 and 2 for the tone template, 2, 1 and 0 for the logic template.
  - The logic prompt is proved to ask for 3 weaknesses and 3 follow-up questions, 9 questions in all. The template sets no number for the improvement suggestions.
  - Further lemmas give the output length, where each argument lands, that the arguments appear unexpanded, that the logic prompt ignores the rate, and that `str(wpm)` reads back as `wpm`.
- **Speed** (`speed.dfy`) and **Pipeline** (`pipeline.dfy`).
  - Speed is the 120/160 speed verdict.
  - Pipeline is the all-or-nothing results of `process_audio` and `get_llm_feedback`, and the gates in `main` that decide whether a report is shown.
  - The speech-to-text service, the audio decoder and the chat-completion service appear only as what they returned. That is a success carrying its value, or an exception.

`optional.dfy` holds the `Option` type that stands for Python's `None`.

## Model

| member | source | states |
|---|---|---|
| Words.SplitFrom | app.py:80 | every word `str.split()` returns is non-empty and free of whitespace; the result is empty exactly when the rest of the string is whitespace |
| Words.WordCountIsRunCount | app.py:80 | the word count equals the number of positions where a maximal non-whitespace run begins |
| Words.SplitCountsStarts | app.py:80 | splitting from a position outside a word yields as many words as there are run beginnings from there on |
| Words.NoWordsIffAllSpace | app.py:80 | an empty or whitespace-only transcript has 0 words, and only such a transcript does |
| Words.WordCountBound | app.py:80 | a transcript of n characters has at most (n + 1) / 2 words, so never more than n |
| Words.SplitKeepsEveryCharacter | app.py:80 | the words put back together are the transcript's non-whitespace characters in order |
| Rate.RoundHalfEven | app.py:81 | `round(n / d)` is within 1/2 of n / d, and an exact tie goes to the even integer |
| Rate.RoundIsNearest | app.py:81 | no integer is closer to n / d than the rounded value |
| Rate.RoundHalfEvenUnique | app.py:81 | any integer within 1/2 of n / d that is even on a tie is the rounded value |
| Rate.RoundHalfEvenMonotone | app.py:81 | a larger numerator never rounds to a smaller integer |
| Rate.Wpm | app.py:79-81 | a zero-length clip gives 0 and no division; otherwise the rate is within 1/2 of words / minutes, even on a tie |
| Rate.WpmMonotoneInWords | app.py:79-81 | for a fixed duration, more words never give a lower rate |
| Rate.TenWordsInFiveMinutes | app.py:79-81 | 10 words over 300000 ms give a rate of 2 |
| Prompts.Render | app.py:95 | `.format` fails exactly when some placeholder of the template has no argument |
| Prompts.RenderLength | app.py:95 | the output length is the literal text length plus, per placeholder, its argument's length |
| Prompts.FieldsAreCounted | app.py:95 | a template asks for a field exactly when a placeholder for it occurs, so `.format` fails only for a field that is really used |
| Prompts.RenderAppend | app.py:102 | rendering two templates one after the other is rendering their concatenation |
| Prompts.RenderPlacesEachPiece | app.py:95 | each segment's text or argument sits in the output right after the rendering of the segments before it |
| Prompts.RenderReadsOnlyItsFields | app.py:102 | two argument maps that agree on the template's fields render it identically |
| Prompts.NatDecimal | app.py:95 | `str(n)` of a non-negative n is non-empty, all digits, with no leading zero |
| Prompts.DecimalRoundTrip | app.py:95 | the digits `{wpm}` is replaced by read back as the rate |
| Prompts.ToneTemplateFields | app.py:26-39 | the tone template's placeholders are exactly purpose, script and wpm |
| Prompts.ToneTemplateCounts | app.py:26-39 | the tone template has 4 purpose, 1 script and 2 wpm placeholders |
| Prompts.ToneTextLength | app.py:26-39 | the tone template holds 357 characters of literal text |
| Prompts.LogicTemplateFields | app.py:41-55 | the logic template's placeholders are exactly purpose and script |
| Prompts.LogicTemplateCounts | app.py:41-55 | the logic template has 2 purpose, 1 script and no wpm placeholders |
| Prompts.LogicTextLength | app.py:41-55 | the logic template holds 491 characters of literal text |
| Prompts.TonePromptText | app.py:95 | the tone prompt is the template text with every placeholder replaced verbatim by its argument, the rate in decimal |
| Prompts.TonePromptSpelledOut | app.py:95 | any arguments holding the purpose, script and rate digits render the tone template to that text |
| Prompts.LogicPromptText | app.py:102 | the logic prompt is the template text with every placeholder replaced verbatim by its argument |
| Prompts.LogicPromptSpelledOut | app.py:102 | any arguments holding the purpose and script render the logic template to that text |
| Prompts.LogicPromptIgnoresWpm | app.py:102 | two calls differing only in the rate give the same logic prompt |
| Prompts.TonePromptLength | app.py:95 | the tone prompt is 357 + 4·purpose + script + 2·digits of the rate long |
| Prompts.LogicPromptLength | app.py:102 | the logic prompt is 491 + 2·purpose + script long |
| Prompts.ShowsSlot | app.py:95 | a rendered template contains the argument of each of its placeholders |
| Prompts.TonePromptShowsInputs | app.py:95 | the tone prompt contains the purpose, the script and the rate's digits, unexpanded |
| Prompts.LogicPromptShowsInputs | app.py:102 | the logic prompt contains the purpose and the script, unexpanded |
| Prompts.RateOf140Shown | app.py:95 | a rate of 140 appears in the tone prompt as "140" |
| Prompts.LogicShapedShows | app.py:41-55 | a text laid out as the logic template is, whatever its pieces, contains the pieces inside its last two literal parts |
| Prompts.LogicPromptAsksNineQuestions | app.py:50-51 | for every purpose and script, the logic prompt asks for 3 key weaknesses and 3 follow-up questions, and announces 9 questions in all |
| Speed.Assess | app.py:167-184 | below 120 is slow/orange, above 160 is fast/red, 120 to 160 inclusive is appropriate/green, each rate getting exactly one verdict |
| Speed.AssessMonotone | app.py:176-184 | a faster rate never gets a slower verdict |
| Speed.AssessBoundaries | app.py:167-184 | 119 is slow, 120 and 160 are appropriate, 161 is fast |
| Pipeline.ProcessAudio | app.py:59-90 | a transcript comes back exactly when transcription and decoding both succeed, with its duration, word count and rate; any failure gives (None, 0, 0, 0) |
| Pipeline.GetLlmFeedback | app.py:92-113 | the tone prompt is sent first, and the logic prompt is sent, once, exactly when the tone request returned; any failure gives (None, None), which discards a tone report already obtained; both reports come back exactly when both replies carry content |
| Pipeline.ShowFeedback | app.py:152-194 | after a usable transcript, the prompts sent are those of `get_llm_feedback`; the transcript alone is shown unless both reports are non-empty, and then the screen holds the rate, its verdict and both reports |
| Pipeline.Analyze | app.py:138-194 | the error screen comes exactly when no file was uploaded; a failed or empty transcript stops; otherwise the transcript is shown, and the reports exactly when both are non-empty, with the transcript's count, rate and speed verdict; the prompts sent are exactly the tone prompt for the chosen purpose's label and, once the tone request has returned, the logic prompt |

## Left out

- The Streamlit page is not modelled: page setup, columns, widgets, spinners, tabs, the metric and the markdown output (app.py:117-136, 152-153, 160-194). `Pipeline.Analyze` starts after the start button was pressed (app.py:138).
- The progress bar value `min(wpm / 200.0, 1.0)` (app.py:187) is float display arithmetic and is not modelled.
- Loading the API key and constructing the client (app.py:10-22) are not modelled.
- The Whisper and chat-completion requests (app.py:69-74, 96-107) are network calls. They appear only as inputs that say whether each request succeeded and what it returned. The model names and request parameters are not modelled.
- Audio decoding with `AudioSegment.from_file` (app.py:78) is a foreign library. Its result is an input: the clip length in whole milliseconds, or a failure.
- The error message `get_llm_feedback` shows when a chat request fails (app.py:112) is display output and is not modelled; the `(None, None)` it returns is.
- The temporary file is not modelled: writing it, removing it, and the error message (app.py:63-65, 83, 88-89). The write sits before the `try`, so a failed write escapes `process_audio` instead of producing `(None, 0, 0, 0)`. If the removal at line 83 raises, line 89 tries the removal again. If that second removal also fails, the error escapes `process_audio`. If it succeeds, or the file is already gone, `process_audio` returns `(None, 0, 0, 0)` although transcription and decoding both succeeded. On that one path the "exactly when" of `Pipeline.ProcessAudio` does not hold.
- Rate.Wpm: computes `words / (ms / 60000)` with exact rationals, not Python floats. Near an exact .5 boundary, float rounding of the division could pick the other neighbour.
- Pipeline.ProcessAudio: returns the duration in milliseconds rather than the float `total_time_minutes`, which is `ms / 60000`.
- An empty transcript is not a failure of `process_audio`: it returns it like any other (app.py:85). `main` stops only when the transcript is `None` or `""` (`not transcript`, app.py:149). A whitespace-only transcript therefore goes on with 0 words and a rate of 0, which is labelled slow. `Pipeline.Analyze` stops exactly on a failed or empty transcript, and `Words.NoWordsIffAllSpace` gives the 0.
- `get_llm_feedback` passes back whatever content the replies carry, including `None` or `""` (app.py:100, 107, 109). Only `main`'s truth test (app.py:159) keeps such replies from being shown; `Pipeline.GetLlmFeedback` and `Pipeline.Analyze` state both steps.
