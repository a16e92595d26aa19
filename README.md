# SmartTrader decision rules (stock-alert-bot, `gemini_stock_bot.py`)

The bot looks up one ticker's company name, fetches recent headlines from
NewsAPI and asks a Gemini model for a BUY / SELL / HOLD verdict. It e-mails
the user when the verdict looks actionable. This project models the
deterministic rules wrapped around those calls and proves their properties:

- **Construction**: the company name is the ticker info's `shortName`. The
  ticker is used when that field is absent or the lookup raises.
- **Model selection** (`get_model`): the first of `gemini-1.5-flash`,
  `gemini-1.5-flash-latest` and `gemini-pro` whose `models/`-prefixed name
  the listing contains. `gemini-1.5-flash` is used when none matches or the
  listing raises.
- **News shaping** (`get_stable_news`): the first five articles, each as
  `title - description`. The list is empty when the NewsAPI key is missing,
  the request or decoding raises, or one of those five articles lacks a key.
- **Advice guards** (`ask_gemini_for_advice`): a missing Gemini key is checked
  first, then empty news. Each guard returns a fixed `(tag, message)` pair
  without consulting the model. Otherwise the advice is the model's reply
  passed through `str.strip()`, or `("ERROR", str(e))` when the call raises.
- **Alert predicate** (`run_analysis`): `"BUY" in advice or "SELL" in advice`.
  On text this is a case-sensitive substring test. On a tuple it is element
  equality.
- **E-mail guard** (`send_notification`): skipped when the sender or the
  password is missing. The receiver is not checked.

Each outside call is an input value:

- `InfoLookup` stands for the yfinance info dictionary or its exception.
- `NewsResponse` stands for the NewsAPI body or its exception.
- `Listing` stands for `genai.list_models()` or its exception.
- A function `generate: ModelName -> Generation` stands for the chosen
  model's reply or its exception.
- `Config` holds the five environment variables.

Python semantics the rules depend on are written out in module `PyStr`:

- `sub in s` on strings.
- `str.strip()`, using the exact whitespace set of `str.isspace()`.

## Model

| member | source | states |
|---|---|---|
| SmartTrader.NewTrader | gemini_stock_bot.py:21-26 | the ticker is kept; the company name is `shortName` when the info has it, and the ticker when the field is absent or the lookup raised |
| SmartTrader.SelectModel | gemini_stock_bot.py:28-52 | plain flash is chosen whenever listed, whatever else is; `-latest` iff plain flash is absent and `-latest` listed; `gemini-pro` iff both flash names are absent and it is listed; the result is either listed (under its `models/` name) or the default, is the default when nothing matches or the listing raised, and is always one of the three fixed names |
| SmartTrader.FirstOfferedIndex | gemini_stock_bot.py:38-46 | reference first-match search: every preference before the returned position is unlisted and the one at it is listed |
| SmartTrader.SelectModelIsFirstOffered | gemini_stock_bot.py:38-49 | the if/elif chain equals the first listed entry of the preference order [flash, flash-latest, pro], or the default when there is none |
| SmartTrader.Take | gemini_stock_bot.py:62 | Python slice `[:n]`: a prefix of the input of length at most n, all of it when it is no longer than n |
| SmartTrader.Headlines | gemini_stock_bot.py:63 | the comprehension fails exactly when some article lacks `title` or `description`; otherwise it has one entry per article, in order, entry i being `title - description` of article i |
| SmartTrader.StableNews | gemini_stock_bot.py:54-66 | at most 5 headlines; empty without a NewsAPI key, when the fetch/decoding raised or `articles` is absent; a non-empty result holds the first min(5, n) articles in order as `title - description`; with a key and a payload the result is empty iff there are no articles or one of the first five lacks a key |
| SmartTrader.NewsIgnoresLaterArticles | gemini_stock_bot.py:62-63 | articles after the fifth, even malformed ones, never change the headlines |
| SmartTrader.AskForAdvice | gemini_stock_bot.py:68-91 | missing Gemini key gives ("ERROR", "Missing Gemini API Key") even with empty news; otherwise empty news gives ("NEUTRAL", "No news found."); otherwise the selected model's reply, stripped (a whitespace-trimmed slice of it), or ("ERROR", message) when the call raised |
| SmartTrader.GuardsSkipTheModel | gemini_stock_bot.py:69-72 | when a guard fires the advice is a tuple and does not depend on the listing or on the model at all |
| SmartTrader.Alert | gemini_stock_bot.py:124-127 | on text: true iff "BUY" or "SELL" occurs at some position (case-sensitive substring); on a tuple: true iff one of its two elements equals "BUY" or "SELL" |
| SmartTrader.GuardAdviceNeverAlerts | gemini_stock_bot.py:70-72 | neither fixed guard tuple triggers a notification |
| SmartTrader.SellingAlerts | gemini_stock_bot.py:124 | any text containing "SELLING" triggers a notification |
| SmartTrader.NoKeywordLetterNoAlert | gemini_stock_bot.py:124 | text with no upper-case B or S (e.g. "HOLD - ..." or lower-case "buy") never triggers a notification |
| SmartTrader.AlertIgnoresStrip | gemini_stock_bot.py:89 | stripping the model's reply never changes whether it triggers a notification |
| SmartTrader.SendNotification | gemini_stock_bot.py:93-100 | skipped iff sender or password is missing (None or empty); otherwise a delivery attempt with those credentials, the receiver as configured (unchecked, possibly missing) and subject "Stock Alert: <ticker>" |
| SmartTrader.RunAnalysis | gemini_stock_bot.py:110-127 | the advice is the guarded model advice on the shaped news; a notification is attempted iff the alert predicate holds on that advice, and it is the outcome of the credential guard |
| SmartTrader.MissingKeyNeverNotifies | gemini_stock_bot.py:120-127 | without a Gemini key or without a NewsAPI key no notification is ever attempted |
| SmartTrader.ReplyDecidesNotification | gemini_stock_bot.py:86-89 | when the model replies with text, a notification is attempted iff the raw reply contains "BUY" or "SELL" |
| SmartTrader.GenerationErrorNotifiesOnlyOnKeywordMessage | gemini_stock_bot.py:90-91 | when the model call raises, a notification is attempted iff the error message is exactly "BUY" or "SELL" (tuple membership) |
| PyStr.Contains | gemini_stock_bot.py:124 | Python `sub in s`: true iff `sub` occurs at some position of `s` |
| PyStr.StripLeft | gemini_stock_bot.py:89 | a suffix of the input; everything removed is whitespace; it does not start with whitespace |
| PyStr.StripRight | gemini_stock_bot.py:89 | a prefix of the input; everything removed is whitespace; it does not end with whitespace |
| PyStr.Strip | gemini_stock_bot.py:89 | `str.strip()`: a slice of the input with only whitespace cut on either side, and neither end of it whitespace |
| PyStr.StripIdempotent | gemini_stock_bot.py:89 | stripping twice equals stripping once |
| PyStr.StripKeepsOccurrences | gemini_stock_bot.py:89 | a non-empty, whitespace-free string occurs in the stripped text iff it occurs in the original |

## Left out

- Price lookup (`stock.history(...)`, lines 112-118): it only feeds the prompt and the log. Its float formatting is not modelled.
- Prompt text and `current_price` rendering (lines 74-85): the prompt is folded into the `generate` input.
- The Gemini reply therefore depends on the selected model only in the model. How the prompt shapes it is not captured.
- Network and library calls are not modelled: yfinance, NewsAPI HTTP, `genai.list_models`, `genai.GenerativeModel`, `generate_content`. Only their outcomes are inputs. Constructing `GenerativeModel` is taken never to raise.
- SMTP delivery and MIME construction (lines 97-108) are I/O. Only the credential guard and the subject are modelled. The message body is not: it embeds `str(advice)`, which for a tuple is Python's `repr`.
- Environment loading and `genai.configure` (lines 10-18) are configuration plumbing. The settings are the `Config` input.
- All `print` logging is left out.
- NewsResponse: a JSON `null` title or description has no case of its own. The f-string renders it as `None`, so the model writes it as `Some("None")`. An `articles` value that is not a list and a body that is not an object count as a raised fetch.
- NewTrader: only string-valued `info` entries are modelled. A `shortName` that is present but `null` would make the company name `None` in the source.
- The `__main__` entry point (lines 129-131) only runs one fixed ticker.
