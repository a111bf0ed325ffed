# gitai, modelled in Dafny

gitai is a command-line tool that writes commit messages and pull-request
descriptions with a language model. It reads the staged changes or a branch
diff from git, classifies the changed files, builds a template context, renders
a Jinja2 template into a prompt, and sends that prompt to a provider: a local
Ollama or LMStudio server, or the OpenAI or Anthropic API. Its configuration is
layered YAML (default < user < team < project), validated by pydantic models.

This project models the deterministic decision and formatting code of gitai and
proves properties of it. One Dafny module stands for each core source file:

- ChangeModels: `core/models.py`, the file-change and diff-analysis values,
  grouping, extension and directory sets, the scope choice and the
  feature/fix/refactor heuristics.
- GitAnalyzer: `core/git_analyzer.py`, diff-item parsing, line counting,
  previews, `--numstat` parsing with totals, and the change summary.
- TemplateContext: `templates/context.py`, path classification, language and
  description, the 70 % majority rules, the summary fallback, issue references,
  the enhanced analysis and the context dictionaries.
- Templates: `templates/manager.py`, header parsing, variable extraction, the
  category/name cache, validation, listing and search-path order.
- ConfigManagement and ConfigModels: `config/manager.py` and
  `config/models.py`, the deep merge, cleaning, layer precedence, the config
  cache, saving, the validators and defaults, enabled providers and the
  provider-config overlay.
- Validation: `utils/validation.py`, the name rules, similar-name suggestions
  and error-message hints.
- ProviderBase, Ollama, OpenAI, Anthropic, LMStudio and Factory:
  `providers/*.py`, prompt assembly, config checks, response extraction, the
  retry loops against a sequence of per-attempt outcomes, and the registry
  with fallback selection.
- CommitCommand, PrCommand and ConfigCommand: `commands/*.py`, the fallback
  prompts, output formats, default choices and the provider-priority rewrite.

Helper modules model the Python behaviour the core relies on: Wrappers
(Option, Result), Strings (`str` methods), Dicts (insertion-ordered dicts as
sequences of pairs), Ordered (string order, sorted duplicate-free lists),
Values (YAML/JSON values), Python (`int()`, `str()`, subscripts), Errors (the
exception hierarchy as a datatype) and Floats (binary64 rounding of the two
float thresholds, on integers).

Git, HTTP, the file system, the Jinja2 engine, clocks and the environment are
parameters: a repository snapshot, a sequence of per-attempt outcomes, a map
from paths to contents, a template store, and an environment record.

## Model

| member | source | states |
|---|---|---|
| ProviderBase.Clip | src/gitai/providers/base.py:161 | text of at most 200 characters is kept whole; longer text keeps exactly its first 200 characters, followed by "..." |
| ProviderBase.ContextLine | src/gitai/providers/base.py:158-161 | an entry yields a line exactly when its value is a str, int, float, bool, list or dict; a scalar's line holds its value in full |
| ProviderBase.ContextLinesAppend | src/gitai/providers/base.py:157-161 | the lines of a context cut in two are the first part's lines followed by the second part's, so entries appear in dict order |
| ProviderBase.OmittedEntry | src/gitai/providers/base.py:158-161 | an entry holding None or some other object adds nothing, wherever it stands in the context |
| ProviderBase.FormatEntry | src/gitai/providers/base.py:158-161 | the text one pass of the loop adds is that entry's context line |
| ProviderBase.PreparePrompt | src/gitai/providers/base.py:141-163 | the result is the prompt followed by the context block, with the header and the entries' lines in order; an empty context leaves the prompt unchanged |
| ProviderBase.Setting | src/gitai/providers/openai.py:35-39 | config.get agrees with the dict lookup (Dicts.Get) on a present key and gives the default for an absent one |
| ProviderBase.SettingStored | src/gitai/providers/openai.py:35-39 | a present key reads a value the dict stores under it; with distinct keys, the value of every pair holding that key |
| ProviderBase.SettingAfterPut | src/gitai/commands/config.py:309-317 | a value just stored under a key is what `.get` of that key reads, and storing it changes what no other key reads |
| ProviderBase.MissingKeys | src/gitai/providers/base.py:177 | there are never more missing keys than required keys |
| ProviderBase.MissingKeysMembers | src/gitai/providers/base.py:177 | a key is reported missing exactly when it is required and the config lacks it |
| ProviderBase.MissingKeysOrder | src/gitai/providers/base.py:177 | the missing keys keep the order of the required list |
| ProviderBase.ValidateRequiredConfig | src/gitai/providers/base.py:165-181 | succeeds exactly when every required key is present; otherwise a ProviderConfigError lists the missing keys, joined by ", " |
| ProviderBase.ValidateConfigTypes | src/gitai/providers/base.py:183-200 | succeeds exactly when every present key has its expected type; otherwise the error names the first failing key in the given order, with the expected and actual type names |
| ProviderBase.RemoveAll | src/gitai/providers/base.py:115 | removing a pattern never makes the text longer |
| ProviderBase.ProviderNameOfStem | src/gitai/providers/base.py:109-115 | a class named stem + "Provider", where the stem has no capital P, loses exactly its suffix, so its provider name is the stem in lower case |
| ProviderBase.Tries | src/gitai/providers/openai.py:156-158 | the attempts' results, one per attempt, in attempt order |
| ProviderBase.PostsMade | src/gitai/providers/openai.py:156-201 | never more POSTs than attempts allowed, and at least one when any attempt is allowed |
| ProviderBase.RetryFirstSuccess | src/gitai/providers/openai.py:156-201 | the first successful attempt is returned, after exactly as many POSTs as its position plus one |
| ProviderBase.RetryAllFail | src/gitai/providers/openai.py:203-239 | when every attempt fails, all are made and the last attempt's error is raised; the fallback error is only raised when no attempt is allowed |
| ProviderBase.RetrySucceedsIff | src/gitai/providers/openai.py:156-239 | the retry loop succeeds exactly when some attempt succeeds |
| ProviderBase.FirstOk | src/gitai/providers/openai.py:156-201 | the position of the first successful attempt: every earlier attempt failed |
| ProviderBase.LinearBackoff | src/gitai/providers/ollama.py:236 | one pause per failed attempt before the last, the i-th lasting retry_delay times i + 1 |
| ProviderBase.FixedPauses | src/gitai/providers/openai.py:211-234 | one pause per failed attempt before the last, each of one second |
| ProviderBase.ApiKeyFrom | src/gitai/providers/openai.py:34 | a usable (truthy) key exists exactly when the configuration or the environment variable supplies a non-empty one; a truthy configured key wins over the environment; otherwise the variable's value, or None when it is unset |
| ProviderBase.CheckTemperatureAndTimeout | src/gitai/providers/openai.py:72-76 | succeeds exactly when the temperature is a number in [0, 1] and the timeout a positive number; a failure is a ProviderConfigError, or a TypeError for a value that cannot be compared |
| ProviderBase.HostedFailure | src/gitai/providers/openai.py:203-234 | a timeout is raised as a GenerationTimeoutError; every other failure as a ProviderError |
| ProviderBase.HostedAttempts | src/gitai/providers/openai.py:155-239 | the loop's result, POST count and pauses are those of three attempts with one-second pauses, stopping at the first success |
| ProviderBase.ChoicesContent | src/gitai/providers/openai.py:176-190 | the content is found only in a reply whose truthy "choices" list holds a message; it is never empty; a reply without truthy choices is reported as "No response from" the vendor |
| ProviderBase.ChoicesResponse | src/gitai/providers/openai.py:192-201 | a response exists exactly when the content does; it carries that content, the configured model, and metadata ending with the request time and the provider's name |
| OpenAI.ValidateConfig | src/gitai/providers/openai.py:58-76 | passes exactly when the key is truthy and the temperature and timeout checks pass; a missing key is reported first, with the OPENAI_API_KEY hint |
| OpenAI.Create | src/gitai/providers/openai.py:22-56 | a created provider keeps its config, has a truthy key, a temperature in [0, 1], a positive timeout, the configured model (gpt-3.5-turbo by default) and a base URL without a trailing slash; no key in config or environment is a ProviderConfigError |
| OpenAI.PayloadUsesPromptOnly | src/gitai/providers/openai.py:128-148 | the POST body depends on the request's prompt alone: its context, model, max_tokens and temperature are ignored |
| OpenAI.ReplyAsWritten | src/gitai/providers/openai.py:192-201 | as written, no reply yields a response: a usable one raises the TypeError for the unexpected keyword argument generation_time |
| OpenAI.Reply | src/gitai/providers/openai.py:176-201 | as intended, a reply yields a response exactly when it holds non-empty content |
| OpenAI.Answer | src/gitai/providers/openai.py:158-234 | as written every attempt fails; as intended a reply succeeds exactly when it holds content |
| OpenAI.Steps | src/gitai/providers/openai.py:156-158 | one result per attempt, each the answer to that attempt's POST |
| OpenAI.GenerateLoop | src/gitai/providers/openai.py:103-239 | an unhealthy API raises ProviderUnavailableError with no POST; otherwise three attempts with one-second pauses, stopping at the first usable reply |
| OpenAI.AsWrittenNeverSucceeds | src/gitai/providers/openai.py:192-201 | as written, generate never returns a response, however the API replies |
| OpenAI.AsWrittenUsableReplies | src/gitai/providers/openai.py:192-239 | as written, three usable replies still cost three POSTs and two pauses, and end in a ProviderError wrapping the TypeError |
| OpenAI.UsableFirstReply | src/gitai/providers/openai.py:156-201 | as intended, a usable first reply is returned after one POST, with its content |
| Anthropic.ValidateConfig | src/gitai/providers/anthropic.py:58-76 | passes exactly when the key is truthy and the temperature and timeout checks pass; a missing key is reported first, with the ANTHROPIC_API_KEY hint |
| Anthropic.Create | src/gitai/providers/anthropic.py:22-56 | a created provider keeps its config, has a truthy key, a temperature in [0, 1], a positive timeout and a base URL without a trailing slash; no key in config or environment is a ProviderConfigError |
| Anthropic.PayloadUsesPromptOnly | src/gitai/providers/anthropic.py:145-161 | the POST body depends on the request's prompt alone: its context, model, max_tokens and temperature are ignored |
| Anthropic.BlocksContent | src/gitai/providers/anthropic.py:189-201 | text is found only in a reply whose "content" key is present, and it is never empty; a reply without truthy content blocks is reported as "No response from Anthropic" |
| Anthropic.ReplyAsWritten | src/gitai/providers/anthropic.py:211-220 | as written, no reply yields a response: a usable one raises the TypeError for the unexpected keyword argument generation_time |
| Anthropic.Reply | src/gitai/providers/anthropic.py:189-220 | as intended, a reply yields a response exactly when it holds text, carrying that text and the configured model |
| Anthropic.Answer | src/gitai/providers/anthropic.py:172-256 | as written every attempt fails; as intended a reply succeeds exactly when it holds text |
| Anthropic.Steps | src/gitai/providers/anthropic.py:170-178 | one result per attempt, each the answer to that attempt's POST |
| Anthropic.GenerateLoop | src/gitai/providers/anthropic.py:117-259 | an unhealthy API raises ProviderUnavailableError with no POST; otherwise three attempts with one-second pauses, stopping at the first usable reply |
| Anthropic.AsWrittenNeverSucceeds | src/gitai/providers/anthropic.py:211-220 | as written, generate never returns a response, however the API replies |
| Anthropic.AsWrittenUsableReplies | src/gitai/providers/anthropic.py:211-259 | as written, three usable replies still cost three POSTs and two pauses, and end in a ProviderError wrapping the TypeError |
| Anthropic.UsableFirstReply | src/gitai/providers/anthropic.py:170-220 | as intended, a usable first reply is returned after one POST, with its text |
| LMStudio.Create | src/gitai/providers/lmstudio.py:24-59 | a bad temperature or timeout is the constructor's error; a created provider keeps its config, a temperature in [0, 1], a positive timeout, a base URL without a trailing slash and the placeholder key "lm-studio" unless one is configured |
| LMStudio.DefaultsAccepted | src/gitai/providers/lmstudio.py:61-74 | no key is required: a config without temperature, timeout and base_url always yields a provider |
| LMStudio.Answer | src/gitai/providers/lmstudio.py:151-229 | a reply succeeds exactly when it holds non-empty content; a timeout or failed request never does |
| LMStudio.Steps | src/gitai/providers/lmstudio.py:149-160 | one result per attempt, each the answer to that attempt's POST |
| LMStudio.GenerateLoop | src/gitai/providers/lmstudio.py:100-232 | an unreachable server raises ProviderUnavailableError with no POST; otherwise three attempts with one-second pauses, stopping at the first usable reply |
| LMStudio.SucceedsIffUsableReply | src/gitai/providers/lmstudio.py:149-229 | generate succeeds exactly when one of the three replies holds non-empty content |
| LMStudio.AllAttemptsFail | src/gitai/providers/lmstudio.py:195-232 | three failed attempts take three POSTs and two one-second pauses, and raise the third attempt's error |
| Ollama.ValidateConfig | src/gitai/providers/ollama.py:53-78 | passes exactly when a present base_url is an http:// or https:// string, a present model is a string and a present timeout a positive number; every failure is a ProviderConfigError |
| Ollama.Create | src/gitai/providers/ollama.py:26-51 | a configuration validate_config refuses is refused with its error; a created provider keeps its config, has a non-negative timeout, a base URL without a trailing slash and the configured model (llama3.1 by default); int() failures are ValueError or TypeError |
| Ollama.TimeoutNonNegative | src/gitai/providers/ollama.py:37 | int() of a validated timeout is never negative |
| Ollama.CreateDefaults | src/gitai/providers/ollama.py:35-42 | any configuration that sets none of base_url, model, timeout, max_retries and retry_delay is accepted and gives localhost:11434, llama3.1, a 30-second timeout, three retries and a one-second delay |
| Ollama.FileLine | src/gitai/providers/ollama.py:282-284 | a changed file gets its line exactly when it is a dict, since .get fails on anything else |
| Ollama.Then | src/gitai/providers/ollama.py:281-284 | two parts in order succeed exactly when both do |
| Ollama.FileLinesOk | src/gitai/providers/ollama.py:281-284 | the file lines are written exactly when every listed file is a dict |
| Ollama.FilesInfo | src/gitai/providers/ollama.py:276-287 | a context without files_changed adds no files part |
| Ollama.RepoInfo | src/gitai/providers/ollama.py:300-304 | a context without repository_info adds no repository line |
| Ollama.OllamaPrompt | src/gitai/providers/ollama.py:265-312 | a prepared prompt starts with the prompt and a newline and ends with the instruction for a concise answer |
| Ollama.OnlyFirstTenFilesListed | src/gitai/providers/ollama.py:281-287 | two file lists of the same length that agree on their first ten files give the same files part |
| Ollama.ListFiles | src/gitai/providers/ollama.py:281-284 | the loop writes the lines of the first ten files, stopping at the first file that is no dict |
| Ollama.FileLinesStopAt | src/gitai/providers/ollama.py:281-284 | the first file that is no dict decides the error, whatever follows it |
| Ollama.PreparePrompt | src/gitai/providers/ollama.py:265-312 | the prompt is built as OllamaPrompt describes: repository, summary, statistics and files parts in that order, then the instruction |
| Ollama.ModelFor | src/gitai/providers/ollama.py:138 | the model is the request's or the provider's; a non-empty request model wins; the payload's model is empty only when the provider's own model is |
| Ollama.Options | src/gitai/providers/ollama.py:147-160 | the options are empty exactly when max_tokens is unset or zero and no temperature is given |
| Ollama.Payload | src/gitai/providers/ollama.py:141-160 | the body starts with model, prompt and stream false, and has an "options" entry exactly when the options are non-empty |
| Ollama.Reply | src/gitai/providers/ollama.py:184-212 | a reply yields a response exactly when it holds a "response" text that is not blank, with that text stripped and the model used; a reply without one is an "Invalid response format" error |
| Ollama.Step | src/gitai/providers/ollama.py:165-232 | a timeout records a GenerationTimeoutError, a failed connection a ProviderUnavailableError, and a reply succeeds exactly when it is usable |
| Ollama.Steps | src/gitai/providers/ollama.py:164-179 | one result per attempt, each the answer to that attempt's POST of the payload |
| Ollama.GenerateLoop | src/gitai/providers/ollama.py:116-247 | the whole of generate: health check, prompt, payload, then max_retries attempts with growing pauses, as Generate describes |
| Ollama.Attempt | src/gitai/providers/ollama.py:163-247 | the retry loop returns the first success, else raises the last error (or the generic one), pausing retry_delay times attempt + 1 after each failure but the last |
| Ollama.FirstSuccessWins | src/gitai/providers/ollama.py:164-236 | the first successful attempt's response is returned, after that many POSTs and the linear pauses before it |
| Ollama.AllAttemptsFail | src/gitai/providers/ollama.py:214-247 | when every attempt fails, max_retries POSTs are made, one pause fewer, and the last attempt's error is raised |
| Ollama.NoAttempts | src/gitai/providers/ollama.py:164-247 | with max_retries at most 0, no POST is made and "Generation failed after all retries" is raised |
| Ollama.AttemptsBounded | src/gitai/providers/ollama.py:164 | generate never makes more than max_retries POSTs, whatever the replies |
| Factory.Construct | src/gitai/providers/factory.py:70-73 | a constructed provider is an instance of the registered class and holds the configuration it was given |
| Factory.RegisteredNameIsLowerStem | src/gitai/providers/factory.py:17-22 | each built-in name is its class name's stem in lower case |
| Factory.ProviderNameOfClass | src/gitai/providers/base.py:109-115 | get_provider_name of each built-in class gives the name the class is registered under |
| Factory.BuiltinNamesAreProviderNames | src/gitai/providers/factory.py:17-22 | every entry of the built-in registry agrees with its class's get_provider_name |
| Factory.ProviderFactory.constructor | src/gitai/providers/factory.py:17-26 | a new factory holds the four built-in classes, in the order ollama, openai, anthropic, lmstudio |
| Factory.ProviderFactory.RegisterProvider | src/gitai/providers/factory.py:28-36 | the name is then bound to the class (appended when new, rebound in place when known), and every other name keeps its binding |
| Factory.ProviderFactory.GetAvailableProviders | src/gitai/providers/factory.py:38-45 | a name is listed exactly when it is registered, in registration order (the i-th name is the key of the i-th registration) |
| Factory.ProviderFactory.CreateProvider | src/gitai/providers/factory.py:47-79 | an unknown name is a ProviderError listing the available names; a known one succeeds exactly when its class accepts the config, and a refusal is a ProviderConfigError wrapping the class's message |
| Factory.ProviderFactory.PickFirstUsable | src/gitai/providers/factory.py:100-130 | the chosen provider is the one of the first candidate that is created and passes its health check; "No healthy providers available" is raised exactly when no candidate does |
| Factory.ProviderFactory.CreateWithFallback | src/gitai/providers/factory.py:81-130 | the primary is tried first, then each fallback in order, and the first usable one is returned, as Pick describes |
| ConfigCommand.AllProvidersDistinct | src/gitai/commands/config.py:292 | the four providers stamped are distinct, so index() finds each at its own place |
| ConfigCommand.EnsureEntry | src/gitai/commands/config.py:306-307 | a dict gains an empty entry under a missing key and gives back the entry under it; any other value raises, a list with "list indices must be integers" |
| ConfigCommand.StampedPuts | src/gitai/commands/config.py:309-311 | the stamp is the three assignments name, enabled, priority, in that order |
| ConfigCommand.StampSettings | src/gitai/commands/config.py:309-311 | a stamped entry holds the provider's name, enabled = True and its priority, and every other key as it was |
| ConfigCommand.Stamp | src/gitai/commands/config.py:306-311 | a pass succeeds only on a providers dict, and leaves a dict |
| ConfigCommand.StampStep | src/gitai/commands/config.py:306-311 | one pass succeeds exactly when the provider's entry is absent or a dict; it then holds the stamped entry under that name and leaves every other key alone |
| ConfigCommand.StampStepDistinct | src/gitai/commands/config.py:306-311 | a pass keeps the providers dict a dict, with distinct keys |
| ConfigCommand.StampAll | src/gitai/commands/config.py:295-311 | the passes, once any has run, succeed only on a dict and leave a dict |
| ConfigCommand.StampAllFailed | src/gitai/commands/config.py:295-311 | a TypeError ends the loop: later passes do not change the outcome |
| ConfigCommand.StampAllOther | src/gitai/commands/config.py:295-311 | a key none of the passes names keeps its value |
| ConfigCommand.StampAllOk | src/gitai/commands/config.py:295-311 | the passes succeed exactly when each listed provider's entry is absent or a dict |
| ConfigCommand.StampAllListed | src/gitai/commands/config.py:295-311 | the i-th listed provider ends up with its stamp over the entry it started with |
| ConfigCommand.StampAllDistinct | src/gitai/commands/config.py:295-311 | the passes keep the keys of the providers dict distinct |
| ConfigCommand.SortError | src/gitai/commands/config.py:314-319 | sorting raises nothing exactly when every entry is a dict whose priority, if present, is a number |
| ConfigCommand.GetError | src/gitai/commands/config.py:317 | the sort key can be computed exactly when every entry is a dict |
| ConfigCommand.CompareError | src/gitai/commands/config.py:314-317 | the keys can be compared exactly when every present priority is a number |
| ConfigCommand.Insert | src/gitai/commands/config.py:314-319 | inserting one item keeps every item and adds exactly that one |
| ConfigCommand.SortBy | src/gitai/commands/config.py:314-319 | the sort is a permutation of its input |
| ConfigCommand.InsertSorted | src/gitai/commands/config.py:314-319 | inserting into a sorted list keeps it sorted |
| ConfigCommand.InsertStable | src/gitai/commands/config.py:314-319 | an inserted item lands after every item with the same key |
| ConfigCommand.SortByCorrect | src/gitai/commands/config.py:314-319 | the sort orders the items by key and is stable: the items of each key keep their relative order |
| ConfigCommand.DistinctKeysOnce | src/gitai/commands/config.py:314 | in a dict, each item occurs once |
| ConfigCommand.PermutationKeepsDistinct | src/gitai/commands/config.py:314-319 | dict() of a reordering of a dict's items has the same distinct keys |
| ConfigCommand.SortedProviders | src/gitai/commands/config.py:314-319 | the reordering succeeds exactly when sorting raises nothing |
| ConfigCommand.MissingPrioritySortsLast | src/gitai/commands/config.py:317 | an entry without a priority (ranked 999) sorts after every entry whose priority is below 999 |
| ConfigCommand.Rewrite | src/gitai/commands/config.py:284-319 | a successful rewrite gives a dict document |
| ConfigCommand.RewriteReplacesProviders | src/gitai/commands/config.py:288-319 | a successful rewrite replaces the document's providers with the reordered stamped ones and keeps every other top-level key |
| ConfigCommand.GetPermuted | src/gitai/commands/config.py:314-319 | reordering a dict with distinct keys reads every key as before |
| ConfigCommand.WrittenReadsStamped | src/gitai/commands/config.py:314-319 | the written providers dict has distinct keys and reads each key as the stamped one does |
| ConfigCommand.RewriteListedEntry | src/gitai/commands/config.py:295-311 | each of the four listed providers is written with its name, enabled = True and priority 1 if chosen, else 2 + its place in the list, and keeps its other settings |
| ConfigCommand.RewriteKeepsUnlisted | src/gitai/commands/config.py:295-319 | a provider outside the list keeps its entry unchanged |
| ConfigCommand.RewriteOrdered | src/gitai/commands/config.py:314-319 | the written providers are the stamped ones, ordered by priority (999 when absent), stably |
| ConfigCommand.StampedRank | src/gitai/commands/config.py:311-317 | a stamped entry is ranked by the priority the stamp gave it |
| ConfigCommand.ListedRank | src/gitai/commands/config.py:295-317 | a listed provider's written item is ranked by its stamped priority |
| ConfigCommand.UnlistedRank | src/gitai/commands/config.py:314-319 | any other written item is the entry it was before |
| ConfigCommand.ChosenComesFirst | src/gitai/commands/config.py:295-319 | when the chosen provider is one of the four and every other entry ranks above 1, the chosen provider comes first |
| ConfigCommand.ChosenRanksFirst | src/gitai/commands/config.py:296-297 | the chosen provider is written, ranked 1 |
| ConfigCommand.OtherRanksLater | src/gitai/commands/config.py:298-304 | every other provider written ranks above 1 under that assumption |
| ConfigCommand.UnknownProviderNotPrimary | src/gitai/commands/config.py:295-311 | a provider name outside the four gives none of them priority 1: the i-th gets 2 + i |
| ConfigCommand.StampedItemSortable | src/gitai/commands/config.py:306-317 | stamping keeps every item sortable when each original entry was |
| ConfigCommand.StampsSucceed | src/gitai/commands/config.py:306-311 | the loop succeeds over providers that are all dicts |
| ConfigCommand.StampedSortable | src/gitai/commands/config.py:314-319 | the stamped providers can be reordered when each original entry was sortable |
| ConfigCommand.RewriteSucceeds | src/gitai/commands/config.py:284-319 | a dict document whose providers are absent or a dict of sortable entries is always rewritten |
| ConfigCommand.RewriteRefusesNonDict | src/gitai/commands/config.py:285-289 | a truthy document that is not a dict is refused with the TypeError of its first use |
| ConfigCommand.RewriteRefusesNonDictEntry | src/gitai/commands/config.py:306-311 | a listed provider whose entry is no dict makes the rewrite fail |
| ConfigCommand.IndexOf | src/gitai/commands/config.py:301 | index() finds a position that holds the item |
| ConfigCommand.IndexOfFirst | src/gitai/commands/config.py:301 | no earlier position holds it |
| ConfigCommand.IndexOfListed | src/gitai/commands/config.py:301 | in a list without repeats, index() finds each item at its own position |
| ConfigCommand.IndexedPriority | src/gitai/commands/config.py:296-304 | the priority the loop body computes is 1 for the chosen provider and 2 + the provider's position otherwise |
| ConfigCommand.StampPriorities | src/gitai/commands/config.py:295-311 | the loop over the four providers computes StampAll: each stamped in turn, stopping at the first TypeError |
| ConfigCommand.Pass | src/gitai/commands/config.py:306-311 | one pass of the loop either ends it with a TypeError or gives the next providers dict |
| ConfigCommand.Perform | src/gitai/commands/config.py:197-220 | steps run in order until one raises: the effects done are the steps before it, and its message is the one raised |
| ConfigCommand.SampleTemplateScope | src/gitai/commands/config.py:208-218 | the team's sample commit template uses the team's name as the default scope |
| ConfigCommand.SetProviderSteps | src/gitai/commands/config.py:249-343 | the step-by-step command has the outcome and effects of SetProvider |
| ConfigCommand.DispatchRaisesConfiguration | src/gitai/commands/config.py:45-66 | every exception the operations raise is a ConfigurationError |
| ConfigCommand.ConfigNeverWraps | src/gitai/commands/config.py:38-76 | handle_config re-raises an invalid team name's error and the operations' ConfigurationErrors unchanged; the helpful-message wrapping never applies |
| ConfigCommand.InvalidTeamRefusedFirst | src/gitai/commands/config.py:40-41 | an invalid team name is refused before anything else is done, whatever else is asked |
| ConfigCommand.ShowChangesNothing | src/gitai/commands/config.py:45-46 | --show wins over every other option, never raises and changes nothing |
| ConfigCommand.NoOptionGivesHelp | src/gitai/commands/config.py:57-66 | with no option the help text is returned and nothing is done |
| ConfigCommand.InitGlobalOutcome | src/gitai/commands/config.py:142-176 | --global leaves an existing user configuration alone; otherwise it initialises it once, and a failure is a ConfigurationError with nothing done |
| ConfigCommand.InitTeamOutcome | src/gitai/commands/config.py:179-246 | --team leaves an existing team configuration alone; otherwise its effects are the four steps in order up to the first that raises, and it succeeds exactly when all four are done |
| ConfigCommand.TeamTemplateWritten | src/gitai/commands/config.py:201-220 | a new team's last effect writes its sample template under its own directory |
| ConfigCommand.SetProviderUninitialised | src/gitai/commands/config.py:274-281 | --set-provider without a user configuration only says how to create one and changes nothing |
| ConfigCommand.SetProviderWritesRewrite | src/gitai/commands/config.py:283-323 | the user configuration is written at most once, with the rewritten document, and only when it was read and rewritten |
| ConfigCommand.SetProviderSucceedsIffWritten | src/gitai/commands/config.py:283-343 | once a user configuration exists, --set-provider succeeds exactly when it writes the file |
| ConfigCommand.SetProviderCases | src/gitai/commands/config.py:283-343 | case by case: a successful rewrite is written unless the write fails; anything else writes nothing |
| ConfigCommand.SetProviderFailureMessage | src/gitai/commands/config.py:342-343 | whatever stops --set-provider is raised as a ConfigurationError starting "Failed to set provider: " |
| ConfigCommand.SetProviderPutsChosenFirst | src/gitai/commands/config.py:292-323 | when one of the four providers is set and no other entry has a priority of 1 or less, the written document lists it first |
| CommitCommand.StyleHint | src/gitai/commands/commit.py:191-200 | a style instruction is added exactly for the "conventional" and "minimal" templates |
| CommitCommand.FallbackPrompt | src/gitai/commands/commit.py:171-202 | the fallback prompt opens with the introduction naming the template, then the analysis figures, and ends with the closing request followed by the style hint (nothing more for other templates) |
| CommitCommand.FormatPreview | src/gitai/commands/commit.py:205-220 | the preview holds the message verbatim between the header naming template and provider and the footer |
| CommitCommand.PreviewedMessage | src/gitai/commands/commit.py:216-220 | a message is read back only from text framed by that header and footer |
| CommitCommand.PreviewRoundTrip | src/gitai/commands/commit.py:205-220 | reading a preview back gives exactly the message it was made from |
| CommitCommand.GitFailure | src/gitai/commands/commit.py:256-264 | every failure is a GitAIError: "nothing to commit" in stderr is checked first, then "not a git repository" (the only InvalidRepositoryError), else the stripped stderr is quoted; any other exception is wrapped |
| CommitCommand.ApplyCommit | src/gitai/commands/commit.py:223-264 | the commit succeeds exactly when both git runs complete; the first one that fails decides the error |
| CommitCommand.ProviderDefaults | src/gitai/commands/commit.py:118-135 | three settings with a 30-second timeout: a null key and the stock model for openai and anthropic, and Ollama's URL and qwen2.5:7b for any other name |
| CommitCommand.ConfigFor | src/gitai/commands/commit.py:113-135 | a configured provider keeps its configuration; a ValueError or KeyError gives the defaults; any other error passes through |
| CommitCommand.ConfigForConfig | src/gitai/commands/commit.py:113-135 | looking up a provider never fails: a configured one gets its merged configuration, any other the defaults |
| CommitCommand.Surface | src/gitai/commands/commit.py:162-168 | what leaves the command is always a GitAIError: the tool's own errors unchanged, any other wrapped with the helpful message |
| CommitCommand.ChosenTemplate | src/gitai/commands/commit.py:95-100 | the template is kept exactly when it exists (or is already the default); otherwise "conventional" is used |
| CommitCommand.PromptFor | src/gitai/commands/commit.py:102-110 | a rendered template is sent verbatim; when rendering fails the prompt opens with the template name, carries the change figures right after, and ends with the closing sentence and the conventional/minimal style hint |
| CommitCommand.Prepare | src/gitai/commands/commit.py:50-135 | outside a repository that error is raised first; a prepared job has passed every check, holds the analysis, the validated provider, the chosen template, its prompt and the provider's configuration |
| CommitCommand.Commit | src/gitai/commands/commit.py:24-168 | every error handle_commit raises is a GitAIError |
| CommitCommand.HandleCommit | src/gitai/commands/commit.py:24-168 | the step-by-step command has the outcome Commit describes |
| CommitCommand.CommitSteps | src/gitai/commands/commit.py:50-160 | the try block has the outcome Outcome describes |
| CommitCommand.PrepareJob | src/gitai/commands/commit.py:50-137 | the first five steps, reassigning the template and provider configuration, give the job Prepare describes |
| CommitCommand.UntrackedSkipsStagedCheck | src/gitai/commands/commit.py:65-66 | with include_untracked the staged-changes check is skipped, so its answer does not matter |
| CommitCommand.OutsideRepository | src/gitai/commands/commit.py:55 | outside a repository nothing else is looked at, and the repository error is raised as it is |
| CommitCommand.PreviewShowsStrippedReply | src/gitai/commands/commit.py:145-158 | a preview shows the stripped reply, which reads back from it, and nothing is committed |
| CommitCommand.CommitAppliesStrippedReply | src/gitai/commands/commit.py:145-160 | without preview the stripped reply is committed, and git's failures reach the caller as mapped |
| CommitCommand.RenderFailureUsesFallback | src/gitai/commands/commit.py:103-110 | when no template renders, the prompt is the fallback one for the template finally chosen, ending with the conventional-commit hint for "conventional" |
| PrCommand.SectionHint | src/gitai/commands/pr.py:208-228 | a section list is added exactly for the "github", "gitlab" and "detailed" templates |
| PrCommand.FallbackPrPrompt | src/gitai/commands/pr.py:188-230 | the fallback prompt opens with the introduction naming the template, then the same figures as the commit prompt, and ends with the closing request followed by the section list (nothing more for other templates) |
| PrCommand.FormatPrOutput | src/gitai/commands/pr.py:233-249 | the output holds the description verbatim between the header naming template, provider and base and the save hint naming the base |
| PrCommand.OutputDescription | src/gitai/commands/pr.py:245-249 | a description is read back only from text framed by that header and save hint |
| PrCommand.OutputRoundTrip | src/gitai/commands/pr.py:233-249 | reading the output back gives exactly the description it was made from |
| PrCommand.PromptFor | src/gitai/commands/pr.py:111-119 | a rendered template is sent verbatim; when rendering fails the prompt opens with the template name, carries the change figures right after, and ends with the closing sentence and the github/gitlab/detailed section hint |
| PrCommand.OutputFor | src/gitai/commands/pr.py:65-66 | no output file is never an error; a given one is kept, in its validated form, exactly when it passes validation, and a refused one raises the validation's own error |
| PrCommand.Check | src/gitai/commands/pr.py:50-87 | outside a repository that error is raised first; a checked request has passed the template, provider, output and branch checks and loaded the configuration |
| PrCommand.Decide | src/gitai/commands/pr.py:104-144 | the decision fails only when the provider lookup raises something other than ValueError or KeyError; it picks the template with its "github" fallback and the matching prompt |
| PrCommand.Prepare | src/gitai/commands/pr.py:50-146 | a prepared job has passed every check, lists at least one changed file, and holds the validated provider, the validated output path, the chosen template, its prompt and the provider's configuration |
| PrCommand.Pr | src/gitai/commands/pr.py:24-185 | every error handle_pr raises is a GitAIError |
| PrCommand.HandlePr | src/gitai/commands/pr.py:24-185 | the step-by-step command has the outcome Pr describes |
| PrCommand.PrSteps | src/gitai/commands/pr.py:50-177 | the try block has the outcome Outcome describes |
| PrCommand.PrepareJob | src/gitai/commands/pr.py:50-146 | the first five steps, reassigning the template and provider configuration, give the job Prepare describes |
| PrCommand.CheckInputs | src/gitai/commands/pr.py:50-87 | the first three steps give the checked request Check describes |
| PrCommand.NoChangesRefused | src/gitai/commands/pr.py:89-92 | a branch whose analysis lists no file is refused with a GitAIError naming the base branch |
| PrCommand.ReplyGoesToFileOrText | src/gitai/commands/pr.py:154-177 | with an output file the stripped reply is saved there; without one it is returned inside the formatted text, from which it reads back |
| PrCommand.RenderFailureUsesFallback | src/gitai/commands/pr.py:111-119 | when no template renders, the prompt is the fallback one for the template finally chosen, ending with the GitHub section list for "github" |
| ConfigManagement.MergeFromKeys | src/gitai/config/manager.py:176-190 | after the assignment loop from the i-th override pair on, a key is present exactly when it was present before or some remaining override pair has it |
| ConfigManagement.MergeFromGet | src/gitai/config/manager.py:178-188 | with distinct override keys, an override key reads the recursive merge of its old and new dict values, or the new value otherwise; every other key keeps its value |
| ConfigManagement.MergeFromDistinct | src/gitai/config/manager.py:176-190 | assigning into the copy never creates a second entry for a key |
| ConfigManagement.MergeSpec | src/gitai/config/manager.py:164-190 | the merged keys are the union of both key sets; two dict values are merged recursively, otherwise the override value wins; keys only in the base keep their base value |
| ConfigManagement.MergeEmpty | src/gitai/config/manager.py:176-190 | merging an empty override returns a dict equal to the base |
| ConfigManagement.MergeConfigs | src/gitai/config/manager.py:164-190 | the copy-then-assign loop, recursing for nested dicts, computes exactly the merge whose properties MergeSpec states |
| ConfigManagement.PutKeepsClean | src/gitai/config/manager.py:233-240 | storing a kept (clean) value into a clean dict leaves it clean |
| ConfigManagement.CleanedIsClean | src/gitai/config/manager.py:225-242 | whatever cleaning keeps of a value holds no None, no empty list and no empty dict at any dict level, and has distinct keys |
| ConfigManagement.CleanedFixed | src/gitai/config/manager.py:225-242 | a value that is already clean with distinct keys is kept unchanged |
| ConfigManagement.CleanIdempotent | src/gitai/config/manager.py:225-242 | the cleaned dict is clean, and cleaning it again gives it back unchanged |
| ConfigManagement.CleanSpec | src/gitai/config/manager.py:229-242 | each key of the cleaned dict reads what cleaning keeps of its original value: None values, empty lists and dicts empty after cleaning disappear, other values stay, and lists are not descended into |
| ConfigManagement.CleanConfigDict | src/gitai/config/manager.py:225-242 | the loop that fills a fresh dict, recursing into nested dicts, computes exactly the cleaning described by CleanSpec |
| ConfigManagement.PathFor | src/gitai/config/manager.py:202-203 | `config_paths.get(level)`: the user path for "user", the team and project paths (possibly None) for those levels, and None for any other level |
| ConfigManagement.Layer | src/gitai/config/manager.py:117-130 | a layer whose path is unset or whose file does not exist leaves the data unchanged; any failure is a ConfigurationError |
| ConfigManagement.Layers | src/gitai/config/manager.py:114-139 | the user, team and project layers applied in that order; any failure surfaces as a ConfigurationError |
| ConfigManagement.Validated | src/gitai/config/manager.py:133-137 | an accepted dict gives a configuration satisfying the model's validation rules; a rejected one gives an InvalidConfigError |
| ConfigManagement.LoadFresh | src/gitai/config/manager.py:110-139 | a successful load is a valid configuration; a failure is a ConfigurationError or an InvalidConfigError |
| ConfigManagement.LoadWithoutFiles | src/gitai/config/manager.py:110-134 | with no configuration file present at any level, loading gives exactly the default configuration |
| ConfigManagement.LayerPrecedence | src/gitai/config/manager.py:111-130 | precedence is default < user < team < project: a key reads the non-dict value of the highest layer that sets it, and a key no file sets keeps its default value |
| ConfigManagement.SavedDictNonEmpty | src/gitai/config/manager.py:212-213 | the cleaned dict save_config writes for a valid configuration is never empty, so reading the file back never falls back to `{}` |
| ConfigManagement.SavedFileAsWritten | src/gitai/config/manager.py:212-217 | the file as written parses back exactly when the configuration holds no filesystem path |
| ConfigManagement.SavedFile | src/gitai/config/manager.py:212-217 | the file save_config is meant to write parses back as the cleaned dict of the configuration |
| ConfigManagement.SavedPathBreaksLoad | src/gitai/config/manager.py:212-217 | as written, saving a configuration that holds a path at any level makes every later load fail with a ConfigurationError |
| ConfigManagement.LayersFail | src/gitai/config/manager.py:141-162 | a file at any of the three levels that cannot be read, or that safe_load refuses, makes the whole layered load fail |
| ConfigManagement.SavedFileReadsBack | src/gitai/config/manager.py:117-130 | with paths written as strings, a saved valid configuration read back as a layer gives its cleaned dict merged over the lower layers |
| ConfigManagement.ValidateConfigDict | src/gitai/config/manager.py:378-391 | no messages exactly when the dict is accepted as a configuration, and otherwise exactly the model's error lines for the refused fields |
| ConfigManagement.PathsOf | src/gitai/config/manager.py:70-93 | the project path exists iff a project root is given and is `<root>/.gitai/config.yaml`; the team path exists iff a team directory is given and is `<dir>/config.yaml`; the user path is always `<user dir>/config.yaml` |
| ConfigManagement.Current | src/gitai/config/manager.py:107-108 | a present cache is returned as it is; otherwise a fresh load, which is valid when it succeeds |
| ConfigManagement.SameServicesValid | src/gitai/config/models.py:258-279 | the validation rule looks only at the providers and the provider sections, so changing the user, team or project section of a valid configuration keeps it valid |
| ConfigManagement.InitialUserConfig | src/gitai/config/manager.py:260-268 | the user section is set exactly when a name or e-mail is given and nothing else of the default configuration changes; the result stays valid |
| ConfigManagement.WithTeam | src/gitai/config/manager.py:297-306 | only the team section changes, to the given name and templates directory, the conventions or an empty mapping and no required fields; the result stays valid |
| ConfigManagement.WithProject | src/gitai/config/manager.py:337-347 | only the project section changes, to the given name, URL, templates directory and custom variables; the result stays valid |
| ConfigManagement.ConfigManager.constructor | src/gitai/config/manager.py:27-44 | the project root falls back to the git root, the user directory to the platform default, and the default configuration is stored |
| ConfigManagement.ConfigManager.ReadLayer | src/gitai/config/manager.py:117-130 | reading and merging one level's file performs exactly one layer step |
| ConfigManagement.ConfigManager.LoadConfig | src/gitai/config/manager.py:95-139 | without force_reload the cached configuration is returned when present; otherwise the layers are loaded and validated, files are untouched and the cache stays a valid configuration |
| ConfigManagement.ConfigManager.LoadFreshConfig | src/gitai/config/manager.py:110-139 | the layered, validated load, independent of the cache |
| ConfigManagement.ConfigManager.SaveConfig | src/gitai/config/manager.py:192-223 | an unknown level or unset path raises ConfigurationError "Cannot determine path…"; a failed write raises ConfigurationError and changes nothing; otherwise only that level's file is replaced by the cleaned configuration and the cache is cleared; the file written is the corrected plain-string form of the Findings row for manager.py:212-217 |
| ConfigManagement.ConfigManager.InitUserConfig | src/gitai/config/manager.py:244-276 | the default configuration with the given user details is saved at the user level and returned; a failed write changes nothing |
| ConfigManagement.ConfigManager.InitTeamConfig | src/gitai/config/manager.py:278-314 | without a team directory it raises ConfigurationError; otherwise the current configuration with the new team section is saved at the team level; a failed save leaves the files but keeps the changed configuration in the cache |
| ConfigManagement.ConfigManager.InitProjectConfig | src/gitai/config/manager.py:316-352 | outside a git repository it raises ConfigurationError; otherwise the current configuration with the new project section is saved at the project level, with the same cache behaviour as for the team |
| ConfigManagement.ConfigManager.GetCurrentConfigInfo | src/gitai/config/manager.py:354-376 | fails exactly when loading fails; otherwise each of the three levels with its path and whether its file exists, plus the enabled providers and template search paths of the current configuration |
| ConfigManagement.ConfigManager.Presence | src/gitai/config/manager.py:368-371 | exactly the three levels, each mapped to whether its path is set and its file exists |
| ConfigModels.DefaultSettings | src/gitai/config/models.py:25-130 | each service's default section (URL, model, timeout 30, temperature 0.7, no key, its own max_tokens) passes that service's validators |
| ConfigModels.CheckTemperature | src/gitai/config/models.py:38-42 | a temperature is accepted exactly when it was read and lies in [0, 1], and is then kept unchanged |
| ConfigModels.CheckTimeout | src/gitai/config/models.py:44-48 | a timeout is accepted exactly when it was read and is positive, and is then kept unchanged |
| ConfigModels.ParseService | src/gitai/config/models.py:25-130 | a refused section reports at least one error; an accepted one satisfies the temperature and timeout bounds |
| ConfigModels.ServiceBoundsRejected | src/gitai/config/models.py:38-130 | in all four provider sections a temperature outside [0, 1] or a timeout that is not positive is refused, whatever else the section holds |
| ConfigModels.ParseServiceDict | src/gitai/config/models.py:25-130 | a valid section written out by `.dict()` validates back to itself |
| ConfigModels.ParseEntry | src/gitai/config/models.py:9-22 | a provider entry is refused with at least one error, or keeps as extras only keys that are not declared fields |
| ConfigModels.ParseEntryDict | src/gitai/config/models.py:9-22 | a well-formed entry, extras included, written out by `.dict()` validates back to itself |
| ConfigModels.ParseProviders | src/gitai/config/models.py:226-228 | the parsed providers map has exactly the keys of the input, each a well-formed entry, or at least one error is reported |
| ConfigModels.ParseProvidersDict | src/gitai/config/models.py:226-228 | a providers map of well-formed entries written out validates back to itself |
| ConfigModels.ParseTemplates | src/gitai/config/models.py:133-150 | the templates section is refused with at least one error, and an empty dict gives the defaults "conventional", "github", no paths, no variables |
| ConfigModels.ParseTemplatesDict | src/gitai/config/models.py:133-150 | a templates section written out validates back to itself |
| ConfigModels.ParseGit | src/gitai/config/models.py:153-168 | the git section is refused with at least one error, and an empty dict gives the defaults |
| ConfigModels.ParseGitDict | src/gitai/config/models.py:153-168 | a git section written out validates back to itself |
| ConfigModels.ParseUser | src/gitai/config/models.py:171-184 | the user section is refused with at least one error, and an empty dict gives all fields None |
| ConfigModels.ParseUserDict | src/gitai/config/models.py:171-184 | a user section written out validates back to itself |
| ConfigModels.ParseTeam | src/gitai/config/models.py:187-203 | a team section without a name is refused with "team.name: Field required" first |
| ConfigModels.ParseTeamDict | src/gitai/config/models.py:187-203 | a team section written out validates back to itself |
| ConfigModels.ParseProject | src/gitai/config/models.py:206-219 | a project section without a name is refused with "project.name: Field required" first |
| ConfigModels.ParseProjectDict | src/gitai/config/models.py:206-219 | a project section written out validates back to itself |
| ConfigModels.WithDefaultSections | src/gitai/config/models.py:267-279 | existing sections are untouched; a missing section is filled, with its default, exactly when its service is an enabled provider; nothing but the four sections changes |
| ConfigModels.EnabledEntries | src/gitai/config/models.py:263 | exactly the entries of the providers map that are enabled |
| ConfigModels.EnabledEntriesEmpty | src/gitai/config/models.py:263-265 | the list of enabled entries is empty exactly when no provider is enabled |
| ConfigModels.ValidateConfig | src/gitai/config/models.py:257-279 | fails with "At least one provider must be enabled" exactly when no provider is enabled; otherwise gives the configuration with the missing sections of enabled services filled in |
| ConfigModels.CollectEnabled | src/gitai/config/models.py:263 | the comprehension loop collects exactly the enabled entries in map order |
| ConfigModels.FillDefaultSections | src/gitai/config/models.py:268-277 | the assignment loop over the providers computes exactly the filled configuration WithDefaultSections describes |
| ConfigModels.SectionsValid | src/gitai/config/models.py:244-255 | validating the four provider sections one by one validates every section present |
| ConfigModels.Parse | src/gitai/config/models.py:222-279 | a refused dict reports at least one error; an accepted dict gives a valid configuration |
| ConfigModels.ValidIsFilled | src/gitai/config/models.py:267-279 | the model validator changes nothing in a configuration that is already valid |
| ConfigModels.ParseToDict | src/gitai/config/models.py:222-279 | a valid configuration written out by `.dict()` validates back to itself |
| ConfigModels.EnabledPairs | src/gitai/config/models.py:310-314 | exactly the (name, priority) pairs of enabled entries |
| ConfigModels.Insert | src/gitai/config/models.py:315 | one insertion step keeps the elements and adds x, growing the list by one |
| ConfigModels.InsertSorted | src/gitai/config/models.py:315 | inserting into a list sorted by priority keeps it sorted |
| ConfigModels.SortByPriority | src/gitai/config/models.py:315 | the sorted list is a permutation of its input |
| ConfigModels.SortSorted | src/gitai/config/models.py:315 | the sorted list is ascending by priority |
| ConfigModels.SortStable | src/gitai/config/models.py:315 | pairs of equal priority keep their input order |
| ConfigModels.EnabledNames | src/gitai/config/models.py:308-315 | a name is in the list exactly when it is the key of an enabled entry |
| ConfigModels.EnabledProvidersSpec | src/gitai/config/models.py:308-315 | get_enabled_providers lists exactly the enabled names, ascending by priority, with ties in map order |
| ConfigModels.ProviderConfigOf | src/gitai/config/models.py:281-306 | raises ValueError "Provider '<name>' not configured" exactly when the name is not in the providers map |
| ConfigModels.ProviderConfigOverlay | src/gitai/config/models.py:294-306 | each key reads the provider-specific section's value when that section is set and has the key, and the provider's own config value otherwise |
| ConfigModels.ProjectTemplatesDir | src/gitai/config/models.py:350-354 | a directory is returned exactly when the project section is set and has a templates directory |
| ConfigModels.TeamTemplatesDir | src/gitai/config/models.py:344-348 | a directory is returned exactly when the team section is set and has a templates directory |
| ConfigModels.UserTemplatesDir | src/gitai/config/models.py:338-342 | a directory is returned exactly when the user section is set and has a templates directory |
| ConfigModels.TemplateSearchPaths | src/gitai/config/models.py:317-336 | the project, team and user template directories that are set, in that order, followed by the configured search paths |
| ConfigModels.DefaultConfig | src/gitai/config/models.py:357-362 | exactly one provider, "ollama", enabled with priority 1, a default Ollama section and no other service section; it is valid |
| ConfigModels.DefaultConfigValidates | src/gitai/config/models.py:357-362 | the default configuration passes the model validator unchanged, survives `.dict()` and validation, and enables exactly ["ollama"] |
| ConfigModels.ReadStr | src/gitai/config/models.py:31 | a str field missing from the input takes its default and a string given for it is kept |
| ConfigModels.ReadRequiredStr | src/gitai/config/models.py:12 | a required str field succeeds exactly when the input holds a string for it |
| ConfigModels.ReadOptStr | src/gitai/config/models.py:54 | an Optional[str] field is None when absent or given as None, and the string when one is given |
| ConfigModels.ReadInt | src/gitai/config/models.py:32 | an int field missing from the input takes its default and an int given for it is kept |
| ConfigModels.ReadReal | src/gitai/config/models.py:33 | a float field missing from the input takes its default and a float given for it is kept |
| ConfigModels.ReadBool | src/gitai/config/models.py:13 | a bool field missing from the input takes its default and a bool given for it is kept |
| ConfigModels.ReadDict | src/gitai/config/models.py:17-20 | a Dict[str, Any] field defaults to the empty dict and keeps a dict given for it |
| ConfigModels.ReadStrList | src/gitai/config/models.py:159-162 | a List[str] field takes its default when absent and keeps a list of strings given for it |
| ConfigModels.ReadStrDict | src/gitai/config/models.py:194-197 | a Dict[str, str] field defaults to the empty dict and keeps a dict of strings given for it |
| ConfigModels.ExtraPairs | src/gitai/config/models.py:21-22 | the extra pairs a provider entry keeps are exactly those whose keys are not declared fields |
| ConfigModels.ParseOfFields | src/gitai/config/models.py:222-279 | a valid configuration is what the parser returns for any input whose fields read back as it |
| ConfigModels.ToDictGets | src/gitai/config/models.py:222-256 | the dump holds each top-level section under its own key |
| TemplateContext.RestMatchesIff | src/gitai/templates/context.py:106-137 | the `.*X$` tail of a pattern matches from a position exactly when X ends the path there with no newline in between (Python `$` also admits one final newline) |
| TemplateContext.SearchFromIff | src/gitai/templates/context.py:333-349 | `re.search` holds exactly when the pattern matches at some start position, not only at the start of the path |
| TemplateContext.RegexSearchIff | src/gitai/templates/context.py:106-137 | a pattern with alternatives matches exactly when one of its alternatives does |
| TemplateContext.AnyRegexIff | src/gitai/templates/context.py:333-349 | `any(re.search(...))` over a pattern list holds exactly when some pattern of the list matches |
| TemplateContext.SearchIgnoresPrefix | src/gitai/templates/context.py:333-349 | since the search is unanchored, text put in front of a matching path never undoes the match |
| TemplateContext.ClassificationIgnoresPrefix | src/gitai/templates/context.py:333-349 | a test, config or docs path stays classified whatever directories are put in front of it |
| TemplateContext.Classified | src/gitai/templates/context.py:333-349 | a matching pattern of a list classifies the path |
| TemplateContext.TestFileExample | src/gitai/templates/context.py:107 | matching ignores case: "src/Test_Parser.PY" is a test file |
| TemplateContext.UnanchoredTestDirectory | src/gitai/templates/context.py:111 | `tests?/` is searched anywhere, so "latest/notes.md" counts as a test file |
| TemplateContext.ConfigAndDocsExamples | src/gitai/templates/context.py:116-136 | "Dockerfile.dev" is a config file and "docs/setup.rst" a docs file |
| TemplateContext.DetectLanguage | src/gitai/templates/context.py:351-357 | a path without '.' has no language, and any language found is one of the table's |
| TemplateContext.LanguageOfLastExtension | src/gitai/templates/context.py:351-357 | the language is the table entry for the lower-cased text after the last '.', None for an unknown extension |
| TemplateContext.LanguageExamples | src/gitai/templates/context.py:351-357 | "src/Main.PY" is python, "archive.tar.gz" has none (only the last extension counts), "Makefile" has none |
| TemplateContext.FileDescription | src/gitai/templates/context.py:359-376 | a classification description exactly when the file is test, config or docs (in that priority), "New file" exactly for an unclassified ADDED file, the size descriptions only when one side is more than three times the other, otherwise "Updated" |
| TemplateContext.DescriptionBySize | src/gitai/templates/context.py:369-376 | "Major additions" needs added lines and "Major deletions" removed lines; equal counts on an unclassified, non-added file give "Updated" |
| TemplateContext.ChangeTypeName | src/gitai/templates/context.py:298-306 | the five known change types get their own lower-case names, every other type "changed" |
| TemplateContext.MajorityIsShare | src/gitai/templates/context.py:378-392 | the majority rule holds exactly when there are files and the share k/n is above 0.7 |
| TemplateContext.MajorityRoundingDiffers | src/gitai/templates/context.py:384 | with float rounding 63 of 90 files passes the written test `k > n * 0.7`, though 63/90 is exactly 0.7 |
| TemplateContext.MajorityAgreesOffTens | src/gitai/templates/context.py:384 | for fewer than 10^14 files, when n is not a multiple of 10, the written float test and the exact rule agree |
| TemplateContext.DocsChangeRoundingDiffers | src/gitai/templates/context.py:378-384 | a change of 63 docs files among 90 is a docs change as written but not under the exact 70 % rule |
| TemplateContext.MajorityExtremes | src/gitai/templates/context.py:378-392 | an empty change is neither a docs nor a test change; when every file is a docs (test) file it is a docs (test) change |
| TemplateContext.GeneratedSummary | src/gitai/templates/context.py:394-413 | a non-blank existing summary is returned as it is; otherwise one of the six fixed summaries, and the result is never blank; the docs and test cases use the corrected exact 70 % rule of the Findings row for context.py:384 |
| TemplateContext.SummaryFallbackOrder | src/gitai/templates/context.py:401-413 | the generated summary is the first rule that applies in the order docs, tests, feature, fix, refactor, else "Update code" |
| TemplateContext.DigitRun | src/gitai/templates/context.py:422 | the greedy `\d+`: the longest run of digits at a position |
| TemplateContext.HashAt | src/gitai/templates/context.py:422 | `#(\d+)` at a position needs a '#' and at least one digit after it |
| TemplateContext.MatchAt | src/gitai/templates/context.py:421-426 | any match of the four patterns ends after its start and captures the digits that follow some '#' |
| TemplateContext.FindAllSound | src/gitai/templates/context.py:429-432 | every capture of `re.findall` is the digit run after some '#' of the text |
| TemplateContext.FindAllHashComplete | src/gitai/templates/context.py:422-432 | scanning for `#(\d+)` finds the reference at every '#' followed by digits |
| TemplateContext.CapturedIsIssueRefs | src/gitai/templates/context.py:421-432 | the closes/fixes/resolves patterns add nothing that `#(\d+)` does not already find |
| TemplateContext.ExtractRelatedIssues | src/gitai/templates/context.py:415-434 | the result is sorted and duplicate-free and holds exactly the "#digits" references of the text; an empty text gives [] |
| TemplateContext.IssueRefShape | src/gitai/templates/context.py:429-434 | every reference is '#' followed by at least one ASCII digit |
| TemplateContext.ListsSnoc | src/gitai/templates/context.py:249-262 | one more file joins the added, modified, deleted and test lists it belongs to, at the end |
| TemplateContext.WithTypeNameMembers | src/gitai/templates/context.py:254-259 | a category list holds exactly the files of that change type |
| TemplateContext.TestsOfMembers | src/gitai/templates/context.py:261-262 | the test list holds exactly the test files |
| TemplateContext.PartitionSizes | src/gitai/templates/context.py:249-259 | the sizes of the added, modified and deleted lists and of the files in none of them sum to the number of files |
| TemplateContext.PartitionDisjoint | src/gitai/templates/context.py:254-259 | the three category lists are disjoint, and a renamed, copied or "changed" file is in none of them |
| TemplateContext.EnhanceFiles | src/gitai/templates/context.py:243-262 | the loop gives one enhanced entry per file, in order, and exactly the files of each category in the added, modified, deleted and test lists |
| TemplateContext.EnhanceDiffAnalysis | src/gitai/templates/context.py:239-293 | one enhanced entry per file in order, the category and test lists, the generated summary, scope, feature/fix/refactor/docs/test flags, totals and related issues of the analysis; its docs and test flags use the corrected exact 70 % rule of the Findings row for context.py:384 |
| TemplateContext.CategoryOfFile | src/gitai/templates/context.py:249-262 | a file is in the added, modified or deleted list exactly when its change type is ADDED, MODIFIED or DELETED, and in the test list exactly when its path is a test path |
| TemplateContext.WithAdditional | src/gitai/templates/context.py:200-201 | keys of the additional context override the built-in ones, every other key keeps the built-in value, and no key appears twice |
| TemplateContext.CommitBaseFacts | src/gitai/templates/context.py:193-198 | the built-in commit context has exactly the keys changes, repository, user and timestamp, with the given user taking precedence over the looked-up one |
| TemplateContext.PrBaseFacts | src/gitai/templates/context.py:225-232 | the built-in PR context has exactly the commit keys plus base_branch and head_branch, holding the analysis, the repository, the given user first, the given branches and the timestamp |
| TemplateContext.CommitContextFacts | src/gitai/templates/context.py:193-203 | the commit context's keys are the built-in ones and those of the additional context; every built-in key the additional context does not set keeps its value |
| TemplateContext.AdditionalKeeps | src/gitai/templates/context.py:200-201 | a key the additional context does not set keeps its built-in value |
| TemplateContext.PrContextKeys | src/gitai/templates/context.py:225-235 | the PR context's keys are the built-in PR keys and those of the additional context |
| TemplateContext.PrContextValues | src/gitai/templates/context.py:225-235 | changes, branches and user keep their built-in values unless the additional context sets them |
| TemplateContext.BuildCommitContext | src/gitai/templates/context.py:177-203 | the commit context holds the enhanced analysis, repository, user and timestamp, each overridden by the additional context where it sets the key |
| TemplateContext.BuildPrContext | src/gitai/templates/context.py:205-237 | the PR context adds base_branch and head_branch to the commit keys; the enhanced analysis, repository, user, branches and timestamp are each kept unless the additional context sets the key, whose values win |
| TemplateContext.ConfigUserInfo | src/gitai/templates/context.py:540-546 | a user is passed on exactly when the configuration has a user section |
| TemplateContext.ResolveHeadBranch | src/gitai/templates/context.py:584-597 | the given head branch, else the repository's active branch, else "current"; never empty |
| Templates.CapitalizeFirst | src/gitai/templates/manager.py:77-81 | the length is kept, "" stays "", the first character is upper-cased and the rest is left unchanged |
| Templates.CapitalizeFirstIdempotent | src/gitai/templates/manager.py:77-81 | applying the filter twice is the same as applying it once |
| Templates.StrippedPiece | src/gitai/templates/manager.py:147 | a stripped variable name has no white space at either end |
| Templates.NonBlankPieces | src/gitai/templates/manager.py:147 | the kept entries are non-blank and stripped, and no more than the pieces |
| Templates.VariableList | src/gitai/templates/manager.py:144-147 | every name of a `variables:` line is non-empty and stripped |
| Templates.ClassifyLine | src/gitai/templates/manager.py:138-147 | a stripped line opening with "{#" is a description line if it contains "description:", else a variable line if it contains "variables:", else ignored |
| Templates.HeaderLines | src/gitai/templates/manager.py:136-137 | at most the first 10 lines of the content are read |
| Templates.ClassifyAll | src/gitai/templates/manager.py:137-147 | one classification per line |
| Templates.Header | src/gitai/templates/manager.py:136-147 | the header holds at most 10 classified lines |
| Templates.LastDescriptionIndex | src/gitai/templates/manager.py:139-142 | the index of the last description line, none exactly when there is no description line |
| Templates.LastVariablesIndex | src/gitai/templates/manager.py:143-147 | the index of the last variable line, none exactly when there is no variable line |
| Templates.DeclaredSnoc | src/gitai/templates/manager.py:137-147 | a later description or variable line overrides what earlier lines set |
| Templates.DescriptionIsLastDeclared | src/gitai/templates/manager.py:133-142 | the description is the text of the last description line among the first ten, "No description available" without one |
| Templates.DeclaredVariables | src/gitai/templates/manager.py:143-147 | the declared variables are the names of the last variable line, each non-empty and stripped |
| Templates.IdentRun | src/gitai/templates/manager.py:170 | the greedy `[a-zA-Z0-9_]*` run at a position |
| Templates.IdentAt | src/gitai/templates/manager.py:170 | an identifier found at a position is a valid identifier and the text there |
| Templates.CloseAfterIdent | src/gitai/templates/manager.py:170-174 | `(ident)\s*` and the two closing characters: an identifier and a match end without '{' in between |
| Templates.OutputAt | src/gitai/templates/manager.py:170 | a `{{ ident }}` match opens with "{{", captures an identifier and holds no further '{' |
| Templates.IfTestAt | src/gitai/templates/manager.py:174 | a `{% if ident %}` match opens with "{%", captures an identifier and holds no further '{' |
| Templates.VarMatchAt | src/gitai/templates/manager.py:170-174 | a match of either pattern at a position captures an identifier and opens with its two characters |
| Templates.FindVarsFrom | src/gitai/templates/manager.py:171-175 | every name `re.findall` returns is an identifier |
| Templates.FindVarsSound | src/gitai/templates/manager.py:171-175 | every name found matches the pattern somewhere in the text |
| Templates.NoOpeningInside | src/gitai/templates/manager.py:170-174 | no match of a pattern opens strictly inside another match of the same pattern |
| Templates.FindVarsComplete | src/gitai/templates/manager.py:171-175 | scanning from any earlier position finds every match, since matches cannot overlap |
| Templates.FindVarsIsMatchedNames | src/gitai/templates/manager.py:171-175 | `re.findall` from the start finds exactly the names matched somewhere in the text |
| Templates.ContentVariables | src/gitai/templates/manager.py:165-177 | the result is sorted, duplicate-free, made of identifiers, and holds exactly the names used as `{{ v }}` or `{% if v %}` |
| Templates.NoIfTestWithoutPercent | src/gitai/templates/manager.py:174-175 | a text without '%' has no `{% if v %}` matches |
| Templates.ContentVariablesExample | src/gitai/templates/manager.py:165-177 | "{{x}}" mentions exactly ["x"] |
| Templates.AttributeAccessIsNoVariable | src/gitai/templates/manager.py:170 | "{{a.b}}" mentions no variable, since the pattern needs the closing braces right after the identifier |
| Templates.IdentifiersAreStripped | src/gitai/templates/manager.py:150-151 | extracted body variables, like declared ones, are non-empty and stripped |
| Templates.Stem | src/gitai/templates/manager.py:127 | the template name is the file name without its final ".j2" |
| Templates.InfoOf | src/gitai/templates/manager.py:125-159 | the info has the file's stem as name, its path and category, and variables that are non-empty and stripped |
| Templates.ReadHeader | src/gitai/templates/manager.py:133-147 | the line loop ends with the last declared description and the last declared variable list |
| Templates.ExtractTemplateInfo | src/gitai/templates/manager.py:125-159 | the header walk, with the fallback to body variables when none are declared, gives exactly the info InfoOf describes |
| Templates.LoaderRoots | src/gitai/templates/manager.py:44-52 | at least one loader root: the search paths that are existing directories, else "." |
| Templates.ExistingDirs | src/gitai/templates/manager.py:46-48 | exactly the search paths that are existing directories |
| Templates.FindSource | src/gitai/templates/manager.py:54-55 | the first root, in order, under which the template file exists, and none exactly when no root has it |
| Templates.Load | src/gitai/templates/manager.py:199-210 | a loaded template comes from the first root holding the file; "not found" exactly when no root holds the file; "unreadable", with the read error's text, exactly when the first file found cannot be read or decoded |
| Templates.Fetch | src/gitai/templates/manager.py:198-210 | loading succeeds exactly when the file is found, readable and parses; TemplateNotFoundError exactly when no file is found; an unreadable file's OSError or UnicodeDecodeError passes through unchanged; otherwise TemplateError |
| Templates.Undeclared | src/gitai/templates/manager.py:273 | the names that are required and not declared |
| Templates.MissingNames | src/gitai/templates/manager.py:273-278 | the missing set, ascending and without repeats |
| Templates.SetRepr | src/gitai/templates/manager.py:276-278 | the repr of the missing-variable set in the message: braces around each name's repr() (Python.StrRepr), so each quoted name reads back to the name |
| Templates.InDirectory | src/gitai/templates/manager.py:109-123 | every template found in a directory has that directory's category |
| Templates.DiscoveredConcat | src/gitai/templates/manager.py:91-107 | templates of earlier search paths come before those of later ones |
| Templates.MissingPathContributesNothing | src/gitai/templates/manager.py:91-93 | a search path that does not exist contributes nothing |
| Templates.TemplatesOf | src/gitai/templates/manager.py:89 | only "commit" and "pr" have templates; any other category gives [] |
| Templates.FirstNamed | src/gitai/templates/manager.py:265-270 | the first discovered template with the name, none exactly when no template has it |
| Templates.SearchPaths | src/gitai/templates/manager.py:318-334 | project, team and user directories (those given, in that order) come first and the bundled defaults are always last |
| Templates.ProjectTemplateShadowsDefault | src/gitai/templates/manager.py:44-55 | a template present in the project directory and the defaults is loaded from the project directory |
| Templates.TemplateManager.constructor | src/gitai/templates/manager.py:31-40 | the manager keeps its search paths and starts with empty caches |
| Templates.TemplateManager.GetTemplate | src/gitai/templates/manager.py:179-210 | a cached "category/name" template is returned without loading and the cache is unchanged; otherwise the template is loaded and, on success only, cached; the result is always what a fresh load gives |
| Templates.TemplateManager.RenderTemplate | src/gitai/templates/manager.py:212-237 | every failure, a missing template included, becomes a TemplateError, with its own message for an undefined variable |
| Templates.TemplateManager.DiscoverInDirectory | src/gitai/templates/manager.py:109-123 | the readable templates of a directory in listing order, unreadable files skipped |
| Templates.TemplateManager.DiscoverTemplates | src/gitai/templates/manager.py:83-107 | the commit and pr templates of every search path, accumulated in search-path order |
| Templates.TemplateManager.ValidateTemplate | src/gitai/templates/manager.py:239-279 | a template that does not load raises the load error; otherwise it fails, with TemplateValidationError "Template '<name>' missing required variables: " followed by the set of missing names, exactly when required variables are given and the first discovered template of that name lacks one; success is True |
| Templates.TemplateManager.ListTemplates | src/gitai/templates/manager.py:281-300 | a category gives only its own templates ([] for an unknown one); no category gives the commit templates followed by the pr templates |
| Templates.CreateTemplateManager | src/gitai/templates/manager.py:303-334 | a new manager over the ordered search paths with an empty cache |
| Validation.StripNameWord | src/gitai/utils/validation.py:100-108 | a name made only of letters, digits, '-' and '_' is unchanged by strip(), and strip() removes a single trailing newline after it |
| Validation.ValidateTemplateName | src/gitai/utils/validation.py:81-108 | accepted exactly when the name matches `^[a-zA-Z0-9_-]+$` (which admits one trailing newline) and has at most 50 characters; the result is the stripped name; "" gives "Template name cannot be empty" |
| Validation.TemplateNameTrailingNewline | src/gitai/utils/validation.py:100-108 | a valid name followed by one newline is accepted, and strip() returns it without the newline |
| Validation.ValidateTeamName | src/gitai/utils/validation.py:145-179 | accepted exactly when the name is non-empty and its stripped form is a name word of at most 30 characters that is not reserved in any case; the result is the stripped name; a reserved name gets its own message |
| Validation.StrippedHasNoNewlineEnd | src/gitai/utils/validation.py:160-166 | after strip() the pattern holds exactly for plain name words, so the trailing-newline case cannot apply |
| Validation.ReservedRefused | src/gitai/utils/validation.py:174-177 | a reserved team name in any case, padded or not, is refused |
| Validation.ValidateProviderName | src/gitai/utils/validation.py:111-142 | accepted exactly when the name is non-empty and its stripped, lower-cased form is one of the factory's names (ollama, openai and anthropic when the factory cannot be imported); the result is that normalised name |
| Validation.ProviderNameIdempotent | src/gitai/utils/validation.py:123-142 | validating an accepted provider name again gives the same result |
| Validation.LowerStripFixed | src/gitai/utils/validation.py:126 | strip().lower() applied to its own result changes nothing |
| Validation.Matches | src/gitai/utils/validation.py:312-326 | one pass appends at most one entry per available name |
| Validation.MatchesMembers | src/gitai/utils/validation.py:312-326 | a pass keeps exactly the available names that match |
| Validation.MatchesStep | src/gitai/utils/validation.py:312-326 | one more name is appended at the end exactly when the pass accepts it |
| Validation.Take3 | src/gitai/utils/validation.py:328 | `suggestions[:3]`: a prefix of at most three names, non-empty when the list is |
| Validation.MatchesSubsequence | src/gitai/utils/validation.py:312-326 | the names of a pass keep the order of the available list |
| Validation.SuggestionsSpec | src/gitai/utils/validation.py:296-328 | at most three names, in available order; substring matches (either direction, case-insensitive) take precedence; the prefix/suffix pass applies only when there are none; non-empty whenever some name matches either way |
| Validation.MatchingNames | src/gitai/utils/validation.py:312-326 | the loop of one pass collects exactly the names Matches describes |
| Validation.SuggestSimilarTemplates | src/gitai/utils/validation.py:296-328 | the two loops and the cut to three compute exactly the suggestions SuggestionsSpec describes |
| Validation.HintFor | src/gitai/utils/validation.py:348-391 | the repository hints exactly for an InvalidRepositoryError (or a subclass); no hints exactly when none of the five branches applies to the prefixed message |
| Validation.BaseMessage | src/gitai/utils/validation.py:341-344 | "context: message" with a context, the bare message without |
| Validation.HelpfulErrorMessage | src/gitai/utils/validation.py:331-396 | the result always starts with the base message, is exactly the base message when no branch applies, and otherwise adds the suggestion block of the first branch that applies |
| GitAnalyzer.ItemChangeType | src/gitai/core/git_analyzer.py:271-281 | ADDED exactly for a new file, else DELETED for a deleted one, else RENAMED, else COPIED, else MODIFIED |
| GitAnalyzer.CountMarkedByLines | src/gitai/core/git_analyzer.py:306-307 | the multiline count of `^\+[^+]` (resp. `^-[^-]`) equals the number of lines that start with the mark followed by a different character, the line break included |
| GitAnalyzer.HeaderNotCounted | src/gitai/core/git_analyzer.py:306-307 | a "+++" or "---" line is never counted |
| GitAnalyzer.CountDiffLines | src/gitai/core/git_analyzer.py:302-310 | (added, removed) are the counts of '+' and '-' change lines, and (0, 0) when the patch cannot be read |
| GitAnalyzer.TakeAtMost | src/gitai/core/git_analyzer.py:327 | a prefix of at most n lines, empty for n ≤ 0 |
| GitAnalyzer.CutLines | src/gitai/core/git_analyzer.py:328 | each line cut to its first 100 characters |
| GitAnalyzer.PreviewStep | src/gitai/core/git_analyzer.py:320-328 | a change line of the patch is kept, cut, exactly when it is no header and fewer than max_lines are kept |
| GitAnalyzer.DiffPreview | src/gitai/core/git_analyzer.py:312-370 | the preview skips @@/+++/--- headers, keeps the first max_lines change lines cut to 100 characters, joins them with newlines, and is "" when the patch cannot be read |
| GitAnalyzer.ChangeLinesAreChangeLines | src/gitai/core/git_analyzer.py:320-327 | the candidate lines are change lines of the patch |
| GitAnalyzer.PreviewShape | src/gitai/core/git_analyzer.py:312-332 | at most max_lines lines, each 1 to 100 characters starting with '+' or '-' and cut from a change line of the patch; splitting the joined preview at newlines gives them back |
| GitAnalyzer.FilePreview | src/gitai/core/git_analyzer.py:372-379 | the preview's lines are the first five lines of the file, each cut to 100 characters; "" when unreadable |
| GitAnalyzer.DropLine | src/gitai/core/git_analyzer.py:96-100 | dropping one line of `splitlines()` always shortens the text |
| GitAnalyzer.LineCountBounds | src/gitai/core/git_analyzer.py:96-100 | only the empty text has no lines, and a text never has more lines than characters |
| GitAnalyzer.CrLfIsOneBreak | src/gitai/core/git_analyzer.py:96-100 | `splitlines()` counts "\r\n" as one break and no empty line after a final newline |
| GitAnalyzer.ParseDiffItem | src/gitai/core/git_analyzer.py:269-300 | the change type by priority, the path b_path falling back to a_path, old_path exactly for renames (and then a_path), and the counted lines and preview of the patch |
| GitAnalyzer.ParseItems | src/gitai/core/git_analyzer.py:84-86 | one parsed file change per staged item, in order |
| GitAnalyzer.SumsSnoc | src/gitai/core/git_analyzer.py:87-88 | appending a file change adds its counts to the totals |
| GitAnalyzer.ParseStagedItems | src/gitai/core/git_analyzer.py:78-88 | the staged loop gives the parsed items in order, with totals equal to the sums of their counts |
| GitAnalyzer.UntrackedStep | src/gitai/core/git_analyzer.py:91-113 | one more untracked path adds an ADDED change exactly when the file is readable |
| GitAnalyzer.AddUntracked | src/gitai/core/git_analyzer.py:90-113 | readable untracked files are appended as ADDED with their line counts, and the totals stay the sums of all counts |
| GitAnalyzer.StagedError | src/gitai/core/git_analyzer.py:140-143 | exactly a git command error becomes GitOperationError with "Git command failed: " and its text; any other exception becomes GitAnalysisError with "Failed to analyze staged changes: " and its text |
| GitAnalyzer.StagedChanges | src/gitai/core/git_analyzer.py:53-143 | fails exactly when the diff against HEAD fails, when listing the included untracked files fails, when there are no staged items and no untracked files are included, or when the commit context cannot be built (a detached HEAD), checked in that order; a git command error becomes GitOperationError "Git command failed: …", every other failure GitAnalysisError "Failed to analyze staged changes: …"; otherwise the staged then untracked changes, totals equal to their sums, their summary and the commit context |
| GitAnalyzer.ParseNumstatLine | src/gitai/core/git_analyzer.py:196-213 | blank lines and lines with fewer than three tab fields give nothing; a '-' column gives (0, 0); otherwise a digit column gives its decimal value and a non-digit one 0; the path is the third field |
| GitAnalyzer.NumstatStep | src/gitai/core/git_analyzer.py:196-230 | one more numstat line adds its file change, if it has one, and its counts to the totals |
| GitAnalyzer.ParseNumstat | src/gitai/core/git_analyzer.py:191-230 | the numstat loop gives the file changes of its lines in order, with totals equal to their sums |
| GitAnalyzer.BranchChanges | src/gitai/core/git_analyzer.py:145-267 | fails exactly when there is no active branch or neither diff can be taken; a detached HEAD gives GitAnalysisError "Failed to analyze branch changes: " followed by the TypeError's text, and a failure of both diffs gives GitOperationError "Git command failed: " followed by the text of the local diff's GitCommandError; an empty numstat output gives no files, zero totals, "No changes found" and a commit context of the current and base branch; otherwise the parsed files, totals equal to their sums, their summary, and a commit context adding the commit count since the base |
| GitAnalyzer.GenerateChangeSummary | src/gitai/core/git_analyzer.py:416-445 | the counting loop and part list give exactly the summary text: "No changes", "1 file …" or "N files (…)" with added, modified, deleted, renamed in that order |
| GitAnalyzer.SummaryDependsOnFourCounts | src/gitai/core/git_analyzer.py:432-445 | two lists with the same length and the same added, modified, deleted and renamed counts have the same summary, so copied and other types are never listed |
| GitAnalyzer.SingleFileSummaries | src/gitai/core/git_analyzer.py:442-443 | a lone copied file gives "1 file " and a lone added one "1 file 1 added" |
| GitAnalyzer.SummaryShape | src/gitai/core/git_analyzer.py:444-445 | several files give "N files (" … ")" with N the file count |
| ChangeModels.FromCode | src/gitai/core/models.py:8-18 | a status letter that maps to a change type maps to the member whose value is that letter; any other letter is refused |
| ChangeModels.CodeRoundTrip | src/gitai/core/models.py:8-18 | every change type is recovered from its own letter: the eight values are distinct |
| ChangeModels.NetLinesAgree | src/gitai/core/models.py:50-53 | when the totals are the per-file sums, the analysis' net line change (additions minus deletions) equals the sum of the files' net line changes |
| ChangeModels.SumNetSplit | src/gitai/core/models.py:50-53 | summing net lines over files equals summed additions minus summed removals |
| ChangeModels.ChangeDescription | src/gitai/core/models.py:55-69 | the description starts with the type's verb (Added, Deleted, Modified, Renamed, Copied, else Changed); MODIFIED shows the path with +added and -removed counts; RENAMED and COPIED show old path, an arrow and the path ("None" without an old path); the lengths leave nothing in between; the others are exactly verb, space, path |
| ChangeModels.OfTypeMembers | src/gitai/core/models.py:102-111 | a group of one type holds exactly the files of that type |
| ChangeModels.GroupSizesUpdate | src/gitai/core/models.py:108-110 | replacing one group changes the running size total by the difference of the two groups' sizes |
| ChangeModels.GroupIndex | src/gitai/core/models.py:108 | the lookup of the group of a type finds its position, or none exists |
| ChangeModels.GroupingStep | src/gitai/core/models.py:106-110 | appending one file to a valid grouping gives a valid grouping of the longer list and one more file in total |
| ChangeModels.FilesByType | src/gitai/core/models.py:102-111 | one non-empty group per change type that occurs, types distinct and in order of first occurrence (dict insertion order), every file's type has a group, and each type's group holds that type's files in input order |
| ChangeModels.FirstTypesMembers | src/gitai/core/models.py:102-111 | the first-occurrence order lists exactly the types that occur, each once |
| ChangeModels.GroupKeysStep | src/gitai/core/models.py:107-111 | appending a file opens a group, at the end of the order, exactly when its type is new |
| ChangeModels.ExtensionListMembers | src/gitai/core/models.py:116-120 | the collected extensions are exactly the extensions of the paths holding a "." |
| ChangeModels.DirectoryListMembers | src/gitai/core/models.py:126-130 | the collected directories are exactly the non-empty directory parts of the paths |
| ChangeModels.FileExtensions | src/gitai/core/models.py:113-121 | strictly sorted (so duplicate-free) and holding exactly the lower-cased last "."-pieces of the paths that contain a "." |
| ChangeModels.AffectedDirectories | src/gitai/core/models.py:123-131 | strictly sorted and holding exactly the non-empty directory parts of the paths |
| ChangeModels.DirectoryOfBareName | src/gitai/core/models.py:128 | a path without "/" has no directory part |
| ChangeModels.DirectoryIsPrefix | src/gitai/core/models.py:128 | a path with "/" is its directory part, "/" and a last piece without "/" |
| ChangeModels.ExtensionIsLastPiece | src/gitai/core/models.py:119 | the extension is the lower-casing of a last piece that holds no "." |
| ChangeModels.FirstScope | src/gitai/core/models.py:143-146 | the first common scope that is a substring of some directory, or none of them is |
| ChangeModels.GetChangeScope | src/gitai/core/models.py:133-148 | the loop computes the scope: the single directory, else the single language extension, else the first common scope inside a directory, else "core" for several files and "" otherwise |
| ChangeModels.ScopeOfOneDirectory | src/gitai/core/models.py:135-136 | when every file sits in the same non-empty directory, that directory is the scope |
| ChangeModels.EmptyScopeMeansOneFile | src/gitai/core/models.py:148 | an empty scope only comes from an analysis of at most one file |
| ChangeModels.ScopeSources | src/gitai/core/models.py:133-148 | the scope is an affected directory, a language extension, a common scope, "core" or "" |
| ChangeModels.RefactorRoundingAgrees | src/gitai/core/models.py:169-177 | for line totals below 2^50, abs(add - del) < max(add, del) * 0.3 evaluated in binary64 decides exactly as the integer test 10 * abs(add - del) < 3 * max does |
| ChangeModels.FeatureExcludesFix | src/gitai/core/models.py:150-167 | no change is both a likely feature and a likely fix |
| ChangeModels.RefactorNeeds | src/gitai/core/models.py:169-177 | a likely refactor needs a renamed or copied file, and zero totals never qualify |
| Floats.ThreeTenthsExact | src/gitai/core/models.py:172-174 | for every int m below 2^50, k < m * 0.3 with Python's int-to-double conversion, rounded product and exact int/float comparison holds exactly when 10k < 3m |
| Floats.SevenTenthsExactOffTens | src/gitai/templates/context.py:384 | for counts below 10^14 that are not multiples of 10, k > n * 0.7 in binary64 holds exactly when 10k > 7n |
| Floats.RoundToDouble | src/gitai/core/models.py:172-174 | the rounded numerator keeps a value of at most 53 bits and is otherwise within half a rounding step of the exact one |
| Strings.LStripShape | src/gitai/utils/validation.py:108 | str.lstrip() removes exactly the leading white space: the result is a suffix whose first character is not a space |
| Strings.RStripShape | src/gitai/utils/validation.py:108 | str.rstrip() removes exactly the trailing white space: the result is a prefix whose last character is not a space |
| Strings.StripShape | src/gitai/utils/validation.py:108 | str.strip() yields a slice of the text with only white space cut from both ends |
| Strings.StripEmptyIffBlank | src/gitai/utils/validation.py:96 | strip() is empty exactly when the text is all white space |
| Strings.StripIdempotent | src/gitai/utils/validation.py:108 | stripping twice is stripping once |
| Strings.RStripChars | src/gitai/providers/openai.py:48 | rstrip(chars) cuts exactly the trailing run of characters from the set and keeps a prefix not ending in one |
| Strings.Lower | src/gitai/core/models.py:119 | lower() keeps the length and lowers each character |
| Strings.LowerIdempotent | src/gitai/core/models.py:119 | lowering twice is lowering once |
| Strings.FindFrom | src/gitai/core/git_analyzer.py:343 | the first occurrence at or after a start index, or none exists from there on |
| Strings.Split | src/gitai/core/git_analyzer.py:200 | split(sep) gives at least one piece and no piece holds the separator |
| Strings.JoinSplit | src/gitai/core/models.py:128 | joining the pieces of a split with the separator gives back the text |
| Strings.SplitJoin | src/gitai/core/models.py:128 | splitting a join of separator-free pieces gives back the pieces |
| Strings.SplitCount | src/gitai/core/git_analyzer.py:316 | a split has one piece more than the text has separators |
| Strings.SplitLast | src/gitai/core/models.py:119 | with a separator present the text is the other pieces joined, the separator and the last piece |
| Strings.NatToString | src/gitai/core/models.py:63 | str(n) is a non-empty run of decimal digits |
| Strings.NatToStringRoundTrip | src/gitai/core/models.py:63 | reading back the digits of str(n) gives n |
| Strings.Prefix | src/gitai/core/git_analyzer.py:376 | s[:n] is the first n characters, or all of s when shorter |
| Strings.Suffix | src/gitai/core/git_analyzer.py:376 | s[-n:] is the last n characters, or all of s when shorter |
| Python.QuoteFor | src/gitai/providers/base.py:161 | repr() quotes with '"' exactly when the text holds a ' and no " |
| Python.StrRepr | src/gitai/providers/base.py:161 | the repr of a string starts and ends with the chosen quote, reads back to the string, and has no raw newline, carriage return or tab |
| Python.UnescapeEscapeBody | src/gitai/providers/base.py:161 | reading an escaped body back gives the original text, for either quote |
| Python.EscapeBodyOneLine | src/gitai/providers/base.py:158-161 | an escaped body holds no newline, carriage return or tab, so a container's context line stays one line |
| Python.PlainStrRepr | src/gitai/providers/base.py:161 | a text without quotes, backslashes or control characters is written in single quotes unchanged |
| Python.Repr | src/gitai/providers/base.py:161 | str() of a list or dict: a string element reads back from its repr; a list is in brackets and a dict in braces |
| Python.ApostropheRepr | src/gitai/providers/base.py:161 | a string element holding an apostrophe and no double quote, backslash or control character is written in double quotes and otherwise unchanged, as `["it's"]` |
| Python.NewlineRepr | src/gitai/providers/base.py:161 | an example of EscapeBodyOneLine's rule: the one-element list ["a\nb"] is written ['a\\nb'], its newline as a backslash and 'n' |
| Python.Truncate | src/gitai/providers/ollama.py:37 | int() of a float truncates toward zero |
| Python.IntOf | src/gitai/providers/ollama.py:37-39 | int() keeps ints, reads digit strings with an optional sign, and otherwise fails with ValueError or TypeError; a rejected string gives "invalid literal for int() with base 10: " followed by its repr() cut to 200 characters, which reads back as the string whenever the repr fits |
| Python.Key | src/gitai/providers/openai.py:179 | v[k] on a dict holding k reads its value; on a non-dict it fails |
| Python.GetOr | src/gitai/providers/ollama.py:303 | v.get(k, default) reads k when present and the default otherwise; on a non-dict it fails |
| Python.StripValue | src/gitai/providers/openai.py:179 | v.strip() on a string is its stripped text; on anything else it fails |
| Python.RStripSlashes | src/gitai/providers/openai.py:48 | v.rstrip("/") on a string cuts the trailing slashes; on anything else it fails |
| Dicts.GetUpdate | src/gitai/templates/context.py:201 | after d.update(e) the keys of e read e's values and all other keys read d's |
| Dicts.UpdateKeys | src/gitai/templates/context.py:201 | d.update(e) holds exactly the keys of d and of e |
| Dicts.GetPut | src/gitai/config/models.py:298 | after d[k] = v, k reads v and every other key reads as before |
| Dicts.PutKeys | src/gitai/config/models.py:298 | d[k] = v keeps the key order, appending k only when it is new |
| Ordered.SortedDistinct | src/gitai/core/models.py:121 | sorted(set(xs)) is strictly ascending and holds exactly the elements of xs |
| Ordered.SortedUnique | src/gitai/core/models.py:121 | two strictly ascending lists with the same elements are equal, so sorted(set(...)) is determined by its elements |
| Ordered.SortSet | src/gitai/core/models.py:121 | the insertion loop yields a strictly ascending list of exactly the set's elements |
| Errors.HierarchyRoot | src/gitai/utils/exceptions.py:4-100 | every class of the GitAI exception tree is a GitAIError and no built-in error is |

## Left out

- HTTP requests, health checks and JSON decoding are an oracle: a health flag and a function from attempt number to outcome (reply body, timeout, connection error, other request error, other exception).
- `time.time`, `generation_time` and `time.sleep` are not modelled as clocks; the retry loops return the list of pause lengths instead of sleeping.
- GitPython and subprocess calls are a repository snapshot given as a parameter; `_determine_change_type_from_diff` is read from that snapshot, and `_get_repository_info`, `_get_user_info` and the timestamp are an environment record.
- `validate_output_file`, `validate_has_staged_changes` and `validate_branch_has_changes` are not part of this model: they only run subprocesses and touch the file system.
- YAML loading and dumping, `mkdir` and `write_text` are a map from paths to contents; a write error is an argument checked before anything changes, so a dump that fails half-way and truncates the file is not modelled.
- YAML anchors and aliases, and values shared between two places of a document, are not modelled: values are trees.
- Jinja2 compilation, rendering, `StrictUndefined` and the `wordwrap` filter are a template store passed to the template manager; only which errors become which exceptions is modelled.
- Pydantic type coercion beyond the validators and defaults is not modelled: a field of the wrong type is rejected with a type message instead of being converted.
- Dicts are assumed to have distinct keys, as Python dicts always do; the lemmas that need it state it as a precondition.
- Case-insensitive regexes fold ASCII letters only; Unicode case folding is not modelled.
- Temperatures are `real`; the two float thresholds (0.7 and 0.3) are modelled in binary64 by the Floats module, and other float formatting is not.
- `_find_git_root`, `Path.cwd` and the default user configuration directory are constructor arguments of the config manager; `create_config_manager` is not part of this model, since it only picks these paths.
- The report of `gitai config --show` comes from the world record as text or as the message of what building it raised; its layout and console formatting are not modelled.
- The provider registry is a field of one factory object; that it is shared class-wide between all factory instances is not modelled.
- The lists returned by `get_available_models` are constants.
- The render cache of the Jinja2 environment is not modelled; only `get_template`'s category/name cache is.
- Logging and console output are not modelled.
- Head-truncation of large diffs, a fallback commit-message classifier, a second validation pass over the model's reply, and conventional-commit extraction from the reply are not implemented: the code only strips the reply, and `GitConfig.max_diff_size` is declared but never read.
- Some specification functions carry no contract of their own (for example ChangeModels.IsBinary, ChangeModels.NetLines, GitAnalyzer.CountLines). They are definitions, and the lemmas and methods in the table state their properties.
- ChangeModels.IsLikelyRefactor: states the threshold as the exact comparison 10 * |add - del| < 3 * max; ChangeModels.RefactorRoundingAgrees proves it agrees with the binary64 evaluation only for totals below 2^50.
- TemplateContext.MajorityAgreesOffTens: proves agreement of the written 0.7 rule with the exact one only for counts below 10^14 that are not multiples of 10.
- TemplateContext.EnhanceDiffAnalysis: its `is_docs_change` and `is_test_change` flags use the corrected exact rule (TemplateContext.IsDocsChange, TemplateContext.IsTestChange: more than 70 % of the files), not the binary64 product written at context.py:384 and :392 (TemplateContext.IsDocsChangeAsWritten, TemplateContext.IsTestChangeAsWritten); the two can differ at exactly 70 % (63 of 90 files, TemplateContext.DocsChangeRoundingDiffers) and agree when the file count is not a multiple of ten (TemplateContext.MajorityAgreesOffTens).
- TemplateContext.GeneratedSummary: picks the documentation and test summaries by the same corrected exact 70 % rule, not the as-written one.
- ConfigManagement.ConfigManager.SaveConfig: writes the corrected file, with paths as plain strings, not the `python/object/apply:pathlib.PosixPath` tags that the code as written dumps; ConfigManagement.SavedPathBreaksLoad models the as-written dump.
- Strings.Lower: lowers ASCII letters only; Python's `str.lower` also maps other letters, some to longer text ('İ' becomes two code points), so the length equality holds for the model and not for all of Python's text.
- Templates.CapitalizeFirst: upper-cases an ASCII first letter only (Strings.UpperChar); Python's `upper` also maps other letters, some to longer text ('ß' becomes "SS"), which the model's length equality does not allow.
- TemplateContext.DigitRun and TemplateContext.HashAt: `\d` matches ASCII digits only (Strings.IsAsciiDigit); Python's `\d` on `str` also matches other Unicode decimal digits.
- Python.IntLiteral and Python.IntOf: read an optional sign and ASCII digits only; Python's `int()` also strips surrounding white space, allows `_` between digits and reads other Unicode decimal digits, all of which the model reports as ValueError.
- Ollama.FilesInfo: only a list of files is modelled; every other truthy `files_changed` value gives one TypeError, where Python raises TypeError for a number or a dict and AttributeError for a string.
- ConfigCommand.CompareError and ConfigCommand.SortError: the TypeError message names the non-numeric priority's type first and 'int' second; CPython's sort compares in its own order (for two items, the second key against the first), so its message can name the operands the other way round, or another non-numeric priority.
- Templates.TemplateManager.ValidateTemplate: the missing variables are listed in sorted order inside the set's braces (Templates.SetRepr); Python prints the set in its hash order, which varies between runs.
- GitAnalyzer.ParseNumstatLine, GitAnalyzer.ParseNumstat, GitAnalyzer.BranchChanges: the count columns are read as ASCII digits (Strings.IsDigits). Python's `str.isdigit()` also accepts other Unicode digits: a column such as '٣' reads 3 in the source and 0 in the model, and one such as '²' makes `int()` raise ValueError, which the source reports as GitAnalysisError and the model does not. git writes these counts in ASCII.
- ConfigModels.Parse, ConfigManagement.Validated and ConfigManagement.ValidateConfigDict: the error texts are the model's own `"<location>: <message>"` lines; the format pydantic uses is not modelled, neither the `str()` of each error dict that `validate_config_dict` returns nor the multi-line `str(ValidationError)` that the InvalidConfigError of `load_config` embeds.
- Python.Repr: the quote choice and the escapes of `repr()` of a string (Python.StrRepr) are modelled for the backslash, the quote, tab, newline, carriage return and the non-printable characters below U+0100; other characters that Python counts as non-printable (U+2028, unassigned code points, lone surrogates) are written as they are, where Python writes a `\u` or `\U` escape.
- Templates.PathJoin joins with "/" as text; the normalisation `Path` performs ("a//b", "./b", a trailing "/") is not modelled.
- ConfigManagement.ConfigManager.InitUserConfig and ConfigManagement.ConfigManager.InitTeamConfig: the `mkdir` of the configuration directory that these methods do themselves (manager.py:271 and :309) runs outside `save_config`'s try block, so a failure there raises the bare OSError and not a ConfigurationError; the model has one write error, taken inside `save_config` and reported as "Failed to save <level> configuration: …", and does not model that OSError.
- Templates.FindSource and Templates.Load: the template path is joined to each root as text; Jinja2's `split_template_path` raises TemplateNotFound for a path with a `..` piece and drops `.` and empty pieces before the lookup, which the model does not do.
- GitAnalyzer.StagedChanges: the texts of the exceptions the staged diff, the untracked listing and the commit context raise are inputs, and so is whether git or GitPython raised them; the model does not compute GitPython's messages.

## Findings

| source | as written | input that shows it | evidently intended | confidence | as-written member | corrected member |
|---|---|---|---|---|---|---|
| src/gitai/providers/openai.py:192-201 | the success path passes `generation_time=` and `provider_name=` to the `GenerationResponse` dataclass, which declares neither; the TypeError is caught by the generic handler, so every attempt fails | any reply with a non-empty `choices[0].message.content` | return the content, with timing and provider name in `metadata` as the LMStudio provider does | not executed | OpenAI.AsWrittenNeverSucceeds | OpenAI.UsableFirstReply |
| src/gitai/providers/anthropic.py:211-220 | the same undeclared keyword arguments on the success path, so generation can never succeed | any reply whose first content block is a non-empty text block | return the text with the extra fields in `metadata` | not executed | Anthropic.AsWrittenNeverSucceeds | Anthropic.UsableFirstReply |
| src/gitai/templates/context.py:384 | `docs_files > len(files) * 0.7` compares with the rounded product; 90 * 0.7 is 62.99999999999999, so exactly 70 % counts as a majority | 63 documentation files among 90 | more than 70 % of the files, 10k > 7n | not executed | TemplateContext.DocsChangeRoundingDiffers | TemplateContext.MajorityIsShare |
| src/gitai/config/manager.py:212-217 | `save_config` dumps `config.dict()`, which keeps `Path` objects, with the default YAML dumper; it writes `python/object/apply:pathlib.PosixPath` tags that the `safe_load` of a later load refuses | a configuration with a `templates_dir` set, saved at team level | paths written as plain strings, so the saved file reads back | not executed | ConfigManagement.SavedPathBreaksLoad | ConfigManagement.SavedFileReadsBack |
