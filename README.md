# Code-block extractor, modelled in Dafny

The repository has two near-identical copies of a small HTML helper,
`codeblock_extractor.py` and `code_block_extractor.py`. Each defines
`_CodeBlockExtractor`, an `HTMLParser` subclass that collects the text inside
`<pre>` and `<code>` elements. It keeps three fields:

- `_depth`: how many `pre`/`code` tags are open;
- `_buf`: the text fragments of the block that is open;
- `_blocks`: the finished blocks, in closing order.

Three callbacks update these fields. `handle_starttag` opens a level. It clears
the buffer first when no level was open. `handle_endtag` closes a level, but
only when one is open. When the last level closes, it appends the buffer
joined with `"\n"` as a new block. `handle_data` buffers text only while a
level is open. Nested elements therefore merge into the outermost one. A
block is its fragments joined with newlines, not their plain concatenation:
one fragment per data callback, with a `"\n"` between neighbours. The
first copy also has the driver `extract_code_blocks`, which builds a fresh
extractor, feeds it the document and returns its blocks.

The model has five modules:

- `Events` (`events.dfy`): the tokenizer's callbacks as a datatype
  `Event = Start(tag) | End(tag) | Data(text)`. It also holds ASCII
  lower-casing, the `pre`/`code` tag test `IsCodeTag`, and `Join`, which
  models `sep.join(parts)`.
- `ExtractorSpec` (`extractor_spec.dfy`): the extractor as a pure state
  machine. `Step` is one callback, `Run` a stream of callbacks, and
  `Extract(events)` the blocks a fresh extractor ends with. Its lemmas state
  what the machine guarantees: the invariant, what each callback does, that
  blocks only grow at the end, one block per top-level element,
  case-insensitivity, and document order.
- `CodeblockExtractor` (`codeblock_extractor.dfy`): the class of
  `codeblock_extractor.py` with its three fields and handler methods, and the
  driver `ExtractCodeBlocks`. A ghost field `history` records the callbacks
  received so far. `Valid()` says the fields equal `Run(Init, history)` and
  satisfy the invariant, so the class refines the pure machine.
- `CodeBlockExtractor` (`code_block_extractor.dfy`): the class of
  `code_block_extractor.py`. It has the same handlers, and its `Blocks()`
  returns a freshly allocated array, which models `self._blocks.copy()`.
- `Scenarios` (`scenarios.dfy`): concrete callback streams for small
  documents and the blocks they yield.

The module names follow the two file names, which differ only in the
underscore between "code" and "block".

## Model

| member | source | states |
|---|---|---|
| `Events.IsCodeTag` | codeblock_extractor.py:19 | Definition, no contract: the lower-cased name is `pre` or `code`. It is characterised by `CodeTagLetters` and `CodeTagIgnoresCase`. |
| `Events.Join` | codeblock_extractor.py:28 | Definition, no contract: `sep.join(parts)`. It is characterised by `JoinLength`, `JoinAppend` and `JoinSnoc`. |
| `ExtractorSpec.Inv` | codeblock_extractor.py:14-16 | Definition, no contract: depth is never negative, and the buffer is empty while no block is open. `StepPreservesInv` and `RunPreservesInv` prove that it is kept. |
| `ExtractorSpec.Step` | codeblock_extractor.py:18-33 | Definition, no contract: the effect of one callback on the three fields, branch by branch as in the three handlers. The `ExtractorSpec` one-step lemmas state its properties, and the handler methods refine it. |
| `ExtractorSpec.Run` | codeblock_extractor.py:43-44 | Definition, no contract: the callbacks that `feed` and `close` deliver, applied in order. The stream lemmas state its properties, and each class's `Valid()` ties its fields to it. |
| `ExtractorSpec.Extract` | codeblock_extractor.py:39-45 | Definition, no contract: the blocks of a fresh extractor after the whole stream. `ExtractCodeBlocks` is proved to return it. |
| `CodeblockExtractor.Extractor.constructor` | codeblock_extractor.py:12-16 | A new extractor has depth 0, an empty buffer and no blocks, and it satisfies the invariant. |
| `CodeblockExtractor.Extractor.HandleStartTag` | codeblock_extractor.py:18-22 | A `pre`/`code` start tag raises the depth by exactly 1. Any other tag leaves it alone. The buffer is empty afterwards when the depth was 0; otherwise the buffer and blocks are unchanged. The invariant and the refinement of `Step` are kept. |
| `CodeblockExtractor.Extractor.HandleEndTag` | codeblock_extractor.py:24-29 | With no open level, or for a tag that is not tracked, nothing changes. At depth 1 the depth goes to 0, exactly one block `Join(old buf, "\n")` is appended, and the buffer is emptied. At a greater depth only the depth drops by 1. |
| `CodeblockExtractor.Extractor.HandleData` | codeblock_extractor.py:31-33 | Text is appended verbatim, as one fragment, iff the depth is positive. Depth and blocks never change. |
| `CodeblockExtractor.Extractor.Blocks` | codeblock_extractor.py:35-36 | Returns the blocks of the pure machine for the callbacks received so far. |
| `CodeblockExtractor.Deliver` | codeblock_extractor.py:43 | Passes one tokenizer callback to its handler. The extractor stays valid and the callback is appended to its history. |
| `CodeblockExtractor.ExtractCodeBlocks` | codeblock_extractor.py:39-45 | A fresh extractor fed the whole stream returns exactly `Extract(events)`. |
| `CodeblockExtractor.ExtractTwice` | codeblock_extractor.py:39-45 | Two calls on the same stream return identical blocks, because each call builds its own state. |
| `CodeBlockExtractor.Extractor.constructor` | code_block_extractor.py:16-21 | A new extractor has depth 0, an empty buffer and no blocks, and it satisfies the invariant. |
| `CodeBlockExtractor.Extractor.HandleStartTag` | code_block_extractor.py:23-27 | The depth rises by 1 only for `pre`/`code` in any letter case. The buffer is empty afterwards on the 0 to 1 transition, and buffer and blocks are otherwise unchanged. |
| `CodeBlockExtractor.Extractor.HandleEndTag` | code_block_extractor.py:29-34 | Stray end tags at depth 0 are ignored. On the 1 to 0 transition exactly one block, the newline-joined buffer, is appended and the buffer emptied. Deeper end tags only decrement the depth. |
| `CodeBlockExtractor.Extractor.HandleData` | code_block_extractor.py:36-38 | One untrimmed buffer entry per data callback while the depth is positive. Otherwise nothing changes. |
| `CodeBlockExtractor.Extractor.Blocks` | code_block_extractor.py:40-43 | Returns a freshly allocated array holding the internal block list in closing order. That list equals `Extract(history)`. No state changes. |
| `CodeBlockExtractor.OverwriteCopy` | code_block_extractor.py:40-43 | Overwriting every entry of the returned copy leaves the extractor unchanged and still valid. |
| `Events.LowerChar` | codeblock_extractor.py:19 | ASCII folding maps `A`-`Z` to `a`-`z`, leaves every other character alone, and never yields an upper-case letter. |
| `Events.Lower` | codeblock_extractor.py:19 | Lower-casing keeps the length and folds each character in place. |
| `Events.LowerIdempotent` | codeblock_extractor.py:19 | Lower-casing twice is the same as lower-casing once. |
| `Events.CodeTagIgnoresCase` | codeblock_extractor.py:19 | Tag names that agree after lower-casing are both tracked or both not tracked. |
| `Events.CodeTagLetters` | codeblock_extractor.py:25 | A tag is tracked iff it is `pre` or `code` letter by letter, up to case. |
| `Events.JoinLength` | codeblock_extractor.py:28 | The empty list joins to `""`. Otherwise the length is the total fragment length plus one separator between each pair of neighbours. |
| `Events.JoinAppend` | codeblock_extractor.py:28 | Joining `a + b` puts exactly one separator between the joins of `a` and `b`. |
| `Events.JoinSnoc` | codeblock_extractor.py:28 | Joining one more fragment adds one separator and the fragment. |
| `ExtractorSpec.StartTagStep` | codeblock_extractor.py:18-22 | A tracked start tag raises the depth by exactly 1 and keeps the blocks. It clears the buffer only when the depth was 0. |
| `ExtractorSpec.EndTagAtZeroNoOp` | codeblock_extractor.py:25 | An end tag at depth 0 leaves depth, buffer and blocks unchanged. |
| `ExtractorSpec.EndTagStep` | codeblock_extractor.py:24-29 | At depth 1 a tracked end tag yields depth 0, an empty buffer and one new block `Join(buf, "\n")`. At a greater depth it only decrements the depth. |
| `ExtractorSpec.DataStep` | codeblock_extractor.py:31-33 | Data is appended verbatim iff the depth is positive. Otherwise the state is unchanged. |
| `ExtractorSpec.OtherTagNoOp` | codeblock_extractor.py:19 | Start and end tags whose lower-cased name is neither `pre` nor `code` leave the state unchanged. |
| `ExtractorSpec.TagCaseIrrelevant` | codeblock_extractor.py:18-29 | Start and end tags whose names agree up to case have the same effect, so `PRE` acts like `pre`. |
| `ExtractorSpec.StepPreservesInv` | codeblock_extractor.py:14-33 | Every callback keeps `depth >= 0` and `depth == 0 ==> buf == []`. |
| `ExtractorSpec.ResetRedundant` | codeblock_extractor.py:20-21 | Under the invariant a tracked start tag leaves the buffer as it was, so clearing it at depth 0 has no effect. |
| `ExtractorSpec.StepBlocks` | codeblock_extractor.py:28 | One callback keeps the earlier blocks as a prefix. It adds exactly one block on a tracked end tag at depth 1 and none otherwise. |
| `ExtractorSpec.RunPreservesInv` | codeblock_extractor.py:14-16 | The invariant holds after any stream of callbacks from a state that satisfies it, in particular from construction. |
| `ExtractorSpec.RunBlocksFrame` | codeblock_extractor.py:28 | The machine never reads or alters earlier blocks. A run's output is the blocks already present followed by what it produces on its own. |
| `ExtractorSpec.RunKeepsEarlierBlocks` | codeblock_extractor.py:28 | Blocks already collected stay, unchanged, as a prefix of the final list. |
| `ExtractorSpec.ExtractConcat` | codeblock_extractor.py:39-45 | If no block is open after stream `a`, then `Extract(a + b) == Extract(a) + Extract(b)`. Output is in document order and `b` is not influenced by `a`. |
| `ExtractorSpec.OutsideDataDiscarded` | codeblock_extractor.py:31-33 | Removing a data callback that arrives while no block is open does not change the result. |
| `ExtractorSpec.RunIgnoresTagCase` | codeblock_extractor.py:18-29 | Two streams that differ only in the letter case of tag names give the same state. |
| `ExtractorSpec.RunCounts` | codeblock_extractor.py:24-29 | Without stray end tags, the depth equals the unclamped nesting count. Every top-level element has either produced its block or is the one still open. |
| `ExtractorSpec.BlockCount` | codeblock_extractor.py:28 | For a balanced stream the number of blocks is the number of top-level `pre`/`code` elements. |
| `ExtractorSpec.RunInside` | codeblock_extractor.py:31-33 | Inside an open block, a stream without stray end tags keeps the block open. It only adds its data texts, in order, to the buffer. |
| `ExtractorSpec.Element` | codeblock_extractor.py:18-33 | A `pre`/`code` element with balanced content yields exactly one block: all text inside it, nested elements included, joined with newlines. |
| `ExtractorSpec.ElementsInOrder` | codeblock_extractor.py:28 | Three consecutive top-level elements give their three blocks in document order. Each element may use its own tracked names, so `<pre>a</pre><code>b</code><PRE>c</pre>` is covered. |
| `ExtractorSpec.NoTagsNoBlocks` | codeblock_extractor.py:18-33 | Any stream that never opens a `pre`/`code` element leaves the initial state unchanged and yields no blocks. Stray tracked end tags are allowed. |
| `Scenarios.UpperPreTracked` | codeblock_extractor.py:19 | `PRE` is tracked, as are `pre` and `code`. `div` and `p` are not (`PreTracked`, `CodeTracked`, `DivIgnored`, `ParagraphIgnored`). |
| `Scenarios.NestedMerges` | code_block_extractor.py:23-38 | `<pre>outer<code>inner</code>more</pre>` yields the single block `"outer\ninner\nmore"`, for any texts and any tracked names. |
| `Scenarios.SingleElement` | code_block_extractor.py:23-38 | `<pre>x</pre>` with no block open appends exactly the block `x`. |
| `Scenarios.UpperCaseTags` | code_block_extractor.py:24 | `<PRE>x</PRE>` and `<pre>x</pre>` both yield `[x]`. |
| `Scenarios.StrayEndTag` | codeblock_extractor.py:25 | `</code>plain text<pre>x</pre>` yields `[x]`, whatever the stray end tag's name. |
| `Scenarios.MixedDocument` | codeblock_extractor.py:39-45 | `<div><pre>a</pre><p>t</p><code>b</code></div>` yields `[a, b]` for tracked `pre`/`code` and untracked `div`/`p`. |
| `Scenarios.MixedDocumentTags` | codeblock_extractor.py:39-45 | The same document with the literal names `div`, `pre`, `p` and `code`. With `a = "print(1)"` and `b = "x=2"` it yields `["print(1)", "x=2"]`. |
| `Scenarios.NoCodeTags` | codeblock_extractor.py:39-45 | No callbacks yield no blocks, and neither does an untracked element followed by a stray tracked end tag. Proved from `NoTagsNoBlocks`. |

## Left out

- The `HTMLParser` tokenizer (`feed` and `close`, codeblock_extractor.py:43-44) is an external library. This covers tag and attribute lexing, entity decoding and raw-text handling. The model takes the callback stream it would deliver as an `Event` sequence, so `ExtractCodeBlocks` receives events rather than markup text.
- Exceptions: the source catches none, so any exception raised inside `feed` or `close` propagates unchanged to the caller of `extract_code_blocks`. The tokenizer is not modelled, so the model has no such error path. The extractor's own handlers raise nothing.
- The `attrs` argument of `handle_starttag` is ignored by both copies and is not carried by `Event.Start`.
- The state of the `HTMLParser` base class (`super().__init__()`) is not modelled.
- `str.lower()` is modelled as ASCII case folding. Full Unicode lower-casing is not modelled.
- CodeblockExtractor.Extractor.Blocks: in `codeblock_extractor.py` it returns the internal list object itself, so a caller that mutates the result would change the extractor. The model returns the list's value and does not capture that alias. The driver discards the extractor right after the call, so its result is unaffected.
- `mcp-server/app.py` (the mock HTTP echo service) is web plumbing with no extraction logic and is not part of this model.
