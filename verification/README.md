# Paged serving, sharded tensors and quantised kernels, verified

This project models the parts of the sharktank serving stack and of the dispatch tuner in which many small index
computations have to agree, and proves that they do. Each module models one source file or one component of it.

* **Serving.** A slab of pages holds the keys and values of every layer of every sequence (`Paging`). A generator hands
  pages out from a free list and batches own rows of them (`Generator`, `Serving`, `PageOwnership`). Prefill writes whole
  blocks, decode writes one position per sequence and reads back through the page table. `ServingRuns` proves over every
  run, with any number of batches interleaved on one generator, that a decode sees exactly the history of its own row.
  `DirectCache` proves that the paged cache refines the direct one, and `PageBudget` that the page count that the
  perplexity evaluation computes is exactly enough.
* **Sharded tensors.** A tensor is a shape and its row-major data (`Tensors`). `Sharding`, `Slices`, `ShapePrograms`,
  `TrackedDims`, `SplitSuccess`, `Permutations`, `Views`, `InferredViews`, `Products`, `ShardedOps`, `BatchedProducts`,
  `Elementwise`, `ShardedElementwise`, `ShardedSuccess`, `Alignment`, `NonEmptyTensors`, `DenseValues` and `FeedForward`
  prove when the sharded operations succeed and when they mean what the plain ones mean, and what these compute, up to
  the tensor-parallel feed-forward block. `ShardedPaging` and `ShardedState` prove that splitting the attention heads
  over devices cannot be seen through the paged cache.
* **Fast forms of simple definitions.** Quantised convolution and linear layers with offset corrections, three einsum
  forms, nibble and six-bit packing, quantisers, the override dispatcher with its cache, the enumeration loop of the
  tuner, and the nesting of parameter names.

The generator, its batches, both caches, the sharded cache, the dispatcher and the parameter tree are classes whose
methods change their fields in place. Each method is proved against a specification on values, and the theorems are
about the specification. Writing through a page table is specified by the relation `Scatter.Scattered`: every written
cell holds one of the values written to it, and every other cell is unchanged. So nothing is assumed about which write
to the padding page 0 comes last.

Numbers are unbounded integers or exact reals. Activations and elementwise operators are arbitrary functions. What one
position stores in one cache partition is an opaque value, except in `ShardedPaging` and `ShardedState`, where it has
heads. The satisfiability solver of the tuner and the class hierarchy of the dispatcher are parameters.

## Model

| member | source | states |
|---|---|---|
| Paging.AddressInjective | sharktank/sharktank/layers/kv_cache.py:262-279 | Two coordinates (page, transformer block, partition, position) that share a slab element are the same coordinate. |
| Paging.SubblockAddress | sharktank/sharktank/layers/kv_cache.py:378-393 | Indexing the table of sub-blocks, as read and write do, and indexing the unflattened table meet at the same element. |
| Paging.AddressIsOffset | sharktank/sharktank/layers/kv_cache.py:281-295 | The address of a cell is its row-major place in a tensor of pages, transformer blocks, partitions and positions. |
| Paging.SubblockIsOffset | sharktank/sharktank/layers/kv_cache.py:378-393 | The index of a sub-block is its row-major place in a tensor of pages, transformer blocks and partitions. |
| Paging.UnflattenUpdate | sharktank/sharktank/layers/kv_cache.py:281-295 | Storing one slab element changes exactly one cell of the page table. |
| Paging.TargetInRange | sharktank/sharktank/layers/kv_cache.py:451-481 | A position within the width of a page-id row is stored in an existing cell of the page that the row names. |
| Paging.PagedKVCache.constructor | sharktank/sharktank/layers/kv_cache.py:246-279 | The cache keeps the three sizes that fix the shape of a page. |
| Paging.PagedKVCache.Allocate | sharktank/sharktank/layers/kv_cache.py:331-349 | A new slab has one element for every coordinate; its contents are arbitrary. |
| Paging.PagedKVCache.Write | sharktank/sharktank/layers/kv_cache.py:485-526 | Exactly the cells of the given transformer block behind the page ids receive the blocks of their sequence and partition; nothing else changes. |
| Paging.PagedKVCache.IndexCopy | sharktank/sharktank/ops/default_impls.py:255-263 | Copying one partition by page index stores every position of every sequence at its target and nothing elsewhere. |
| Paging.PagedKVCache.WriteTimestep | sharktank/sharktank/layers/kv_cache.py:428-483 | One position per sequence and partition is stored, at the ragged position of that sequence; nothing else changes. |
| Paging.PagedKVCache.IndexPut | sharktank/sharktank/ops/default_impls.py:266-274 | The indexed assignment of one partition stores one value per sequence at its own position. |
| Paging.PagedKVCache.Read | sharktank/sharktank/layers/kv_cache.py:351-426 | Reading gathers, per partition and sequence, the first positions through the page table, in order, and changes nothing. |
| Paging.PagedKVCache.IndexSelect | sharktank/sharktank/ops/default_impls.py:277-284 | Selecting the sub-blocks of a batch in one partition yields every stored position of every sequence in order. |
| Paging.PagedKVCache.SelectRow | sharktank/sharktank/layers/kv_cache.py:401-423 | Selecting the sub-blocks of one sequence yields its stored positions in order. |
| DirectCache.DirectKVCache.Write | sharktank/sharktank/layers/kv_cache.py:201-219 | The direct cache overwrites the leading positions of every row in the partitions of one block and keeps everything else. |
| DirectCache.DirectKVCache.WriteTimestep | sharktank/sharktank/layers/kv_cache.py:173-199 | The direct cache overwrites one position per row in the partitions of one block and keeps everything else. |
| DirectCache.DirectKVCache.Read | sharktank/sharktank/layers/kv_cache.py:140-171 | Reading the direct cache returns the prefixes of the rows of the partitions of one block. |
| DirectCache.AllocatedPlaces | sharktank/sharktank/layers/kv_cache.py:112-138 | Any slab and any dense cache of the allocated sizes have a place for every position of the owned blocks, whatever they contain. |
| DirectCache.PagedRefinesDirect | sharktank/sharktank/layers/kv_cache.py:140-526 | After any sequence of write and write_timestep calls on both caches, from unrelated contents and over page ids of which no nonzero one occurs twice, the two caches agree at a position of an owned block if and only if one of the calls wrote it or they happened to agree there at the start. |
| DirectCache.PagedReadsLikeDirect | sharktank/sharktank/layers/kv_cache.py:351-426 | So after any such sequence of calls a paged read and a direct read return the same value at every position of an owned block that has been written. |
| ServingRuns.RunPagesDistinct | sharktank/sharktank/examples/paged_llm_v1.py:96-148 | In every state of every run the padded page table of a batch names no real page twice, which is what the refinement asks of a page table. |
| DirectCache.OperationsStayInTheirBlocks | sharktank/sharktank/layers/kv_cache.py:428-526 | A call changes no cell of another transformer block and no cell of a page outside its page table. |
| Generator.TorchGenerator.constructor | sharktank/sharktank/examples/paged_llm_v1.py:35-50 | A new generator has pages 1 up to the cache size on its free list and sets page 0 aside. |
| Generator.TorchGenerator.AllocPage | sharktank/sharktank/examples/paged_llm_v1.py:69-74 | The last free page is handed out; an empty list is an error that changes nothing. |
| Generator.TorchGenerator.ReleasePage | sharktank/sharktank/examples/paged_llm_v1.py:76-79 | A released page becomes the last free page. |
| Generator.Batch.constructor | sharktank/sharktank/examples/paged_llm_v1.py:83-109 | A new batch takes its prompt blocks off the free list row by row, in the way of a begin step; if the pages run out there is no batch and the pages already taken are gone. |
| Generator.Batch.AllocateSeqBlockIds | sharktank/sharktank/examples/paged_llm_v1.py:134-143 | The loops that grow the rows move the pages that the functional specification of growth moves, also when the pages run out half-way. |
| Generator.Batch.Prefill | sharktank/sharktank/examples/paged_llm_v1.py:145-180 | A prefill is a prefill step of the serving state machine: the whole prompt is written through the padded page table, block by block. |
| Generator.Batch.Decode | sharktank/sharktank/examples/paged_llm_v1.py:182-224 | A decode is a decode step: lengths grow by one, rows grow, the token is written at the previous length and the row is read back; it fails exactly if the pages run out. |
| Generator.DecodeReady | sharktank/sharktank/examples/paged_llm_v1.py:182-230 | After a successful growth the padded table is rectangular, names existing pages and has room for the position each row writes. |
| Generator.TransactCache | sharktank/sharktank/layers/paged_llama_attention_block.py:238-303 | One attention layer writes the step of its own transformer block and then reads back the whole width of the page table, including what it just wrote. |
| PageOwnership.GrowMoves | sharktank/sharktank/examples/paged_llm_v1.py:134-143 | Growing a row moves pages from the end of the free list to the end of the row in order; it succeeds exactly if there are enough, and otherwise empties the free list. |
| PageOwnership.GrowRowsTake | sharktank/sharktank/utils/load_llm.py:134-143 | Growing rows succeeds exactly if the free list covers their total shortfall, and takes exactly that many pages. |
| PageOwnership.BeginSucceeds | sharktank/sharktank/examples/paged_llm_v1.py:99-109 | A batch can be started exactly if the rounded-up blocks of its prompts are together no more than the free pages. |
| PageOwnership.DecodeBlocksExact | sharktank/sharktank/examples/paged_llm_v1.py:134-143 | The block count that decode asks for is the number of full blocks plus one. |
| PageOwnership.GrowOwned | sharktank/sharktank/examples/paged_llm_v1.py:134-143 | Growing a row keeps every page in exactly one place and loses none. |
| PageOwnership.GrowRowsOwned | sharktank/sharktank/examples/paged_llm_v1.py:99-109 | Growing all rows of a batch, as far as it gets, keeps every page in exactly one place and loses none. |
| Masks.InputMaskShowsPrefix | sharktank/sharktank/layers/causal_llm.py:82-96 | The input mask leaves exactly the positions of the sequence visible, in order. |
| Masks.QueryShows | sharktank/sharktank/layers/causal_llm.py:76-131 | In the attention mask a query sees the positions of the sequence up to its own, in order, and nothing else. |
| Masks.DecodeSeesLikePrefill | sharktank/sharktank/layers/causal_llm.py:70-135 | The decode mask of a sequence is the last valid row of the mask a one-shot prefill of the same sequence would use. |
| ServingRuns.RunFaithful | sharktank/sharktank/examples/paged_llm_v1.py:32-230 | At every point of every run, the pages of each live row hold exactly the log of keys and values of that row. |
| ServingRuns.DecodeReadsHistory | sharktank/sharktank/layers/paged_llama_attention_block.py:238-303 | In every run, the unmasked positions a decode returns for a row, block and partition are that row's own log, in order, including the new token. |
| ServingRuns.DecodeShowsLikePrefill | sharktank/sharktank/layers/causal_llm.py:70-135 | In every run, what a decode shows a row is what the last valid row of the attention mask would show of a one-shot prefill of the same log, however that is padded. |
| ServingRuns.BatchesDoNotInterfere | sharktank/sharktank/examples/paged_llm_v1.py:145-230 | In every run, a step of one batch or the start of another changes neither the log nor any stored position of this batch. |
| ServingRuns.HomesDistinct | sharktank/sharktank/examples/paged_llm_v1.py:69-109 | While every page is in one place, two different stored positions of any batches live in different cells. |
| ServingRuns.PaddingKeepsTargets | sharktank/sharktank/examples/paged_llm_v1.py:226-230 | Padding the rows of a batch with page 0 does not move the positions that have a page. |
| ServingRuns.StepHeld | sharktank/sharktank/examples/paged_llm_v1.py:69-143 | A step keeps every page in at most one place, and it keeps all pages accounted for exactly if it is not a begin step with some free pages, but fewer than its prompts take. |
| ServingRuns.PagesConserved | sharktank/sharktank/examples/paged_llm_v1.py:46-109 | In every run no page is in two places and page 0 is in none; pages 1 up to the cache size are all accounted for if and only if no batch was begun with some free pages, but fewer than its prompts take. |
| ServingRuns.LeakingRun | sharktank/sharktank/examples/paged_llm_v1.py:56-109 | A run in which two prompts take the only page of a new generator and lose it. |
| ServingRuns.BeginFits | sharktank/sharktank/examples/paged_llm_v1.py:99-109 | After a successful start each row has exactly the blocks its prompt fills, rounded up. |
| ServingRuns.DecodeFits | sharktank/sharktank/examples/paged_llm_v1.py:134-143 | After a successful growth every row has the page of the position it writes next and room to spare. |
| ServingRuns.DecodeLeavesRoom | sharktank/sharktank/examples/paged_llm_v1.py:182-196 | In every run, after a decode that did not run out of pages, each row has the block of the written position, no more than one block beyond its full ones unless it had more before, and only real pages. |
| PageBudget.PaddedToPageTable | sharktank/sharktank/utils/tokenizer.py:60-75 | Prompts padded to a multiple of the stride are exactly as wide as the page table that the allocation rule gives them. |
| PageBudget.EvaluationOnBudget | sharktank/sharktank/evaluate/perplexity_torch.py:164-220 | In a run of the evaluation loop on the computed cache size, no prefix of the run runs out of pages, and after every step the free list holds exactly what the remaining blocks need. |
| PageBudget.BudgetIsExact | sharktank/sharktank/evaluate/perplexity_torch.py:254-271 | For prompts of three or more tokens the complete evaluation ends with no free page left. |
| Sharding.JoinAt | sharktank/sharktank/ops/sharded_impls.py:1085-1091 | An element of a concatenation is the element of the operand that its index along the dimension falls into. |
| Sharding.JoinData | sharktank/sharktank/ops/sharded_impls.py:1085-1091 | The index-by-index concatenation interleaves the row-major data in chunks of one step of the outer dimensions. |
| Sharding.UnshardRelabelled | sharktank/sharktank/ops/sharded_impls.py:1171-1173 | Shards whose data stay in place and whose split dimension has the same number of steps before it concatenate to the same data. |
| Slices.SplitThenUnshard | sharktank/sharktank/types/tensors.py:981-1012 | Splitting a tensor into shards and unsharding gives the tensor back, for every size and shard count for which the split succeeds. |
| Slices.SplitParts | sharktank/sharktank/types/tensors.py:981-988 | A nonempty dimension is split if and only if dividing it by its rounded-up share gives, rounded up, the shard count again (an empty one only into one shard); then the shards have the sizes of the pieces. |
| Slices.SplitSizes | sharktank/sharktank/types/tensors.py:981-987 | All shards have the rounded-up size, except for the last one, which has what is left. |
| Slices.SplitEvenly | sharktank/sharktank/types/tensors.py:981-988 | A dimension that the shard count divides is always split, into equal shards. |
| Slices.ReshardKeepsMeaning | sharktank/sharktank/ops/sharded_impls.py:998-1021 | Turning a replicated tensor into a split one keeps its meaning if and only if the shard count divides the dimension. |
| Slices.ThirdElementLost | sharktank/sharktank/ops/sharded_impls.py:998-1021 | A vector of three elements in two shares loses the third. |
| ShapePrograms.SplitOpSound | sharktank/sharktank/ops/sharded_impls.py:461-480 | Whenever flatten, unflatten, transpose or unsqueeze of a split tensor, with dimensions counted from the front, succeeds, unsharding its result equals the operation on the unsharded tensor. |
| ShapePrograms.SplitProgramSound | sharktank/sharktank/ops/sharded_impls.py:1142-1163 | The same for every program of these operations: running it on the shards and unsharding equals running it on the unsharded tensor. |
| SplitSuccess.OpSucceeds | sharktank/sharktank/ops/sharded_impls.py:461-480 | With dimensions counted from the front, an operation succeeds on a split tensor if and only if it does on the whole one, and the split dimension is not unflattened and is flattened only as the first of a range and if the shard count divides it. |
| TrackedDims.ProgramTracks | sharktank/sharktank/ops/sharded_impls.py:1142-1163 | For dimensions of either sign: if every operation of a program that succeeds puts the split dimension where it would with its dimensions counted from the front, and would be accepted like that, the program means itself on the unsplit tensor. |
| TrackedDims.OpExact | sharktank/sharktank/ops/sharded_impls.py:461-480 | For at least two shards without empty dimensions and distinct elements, a flatten, unflatten, transpose or unsqueeze with any dimensions that succeeds is right if and only if it tracks the split dimension like that, or flattens it with only single steps before it. |
| TrackedDims.ColumnsStayTogether | sharktank/sharktank/ops/sharded_impls.py:461-480 | Two rows split by columns and flattened as (-3, -2) come back in another order. |
| ShapePrograms.TransposeTracks | sharktank/sharktank/ops/sharded_impls.py:1142-1152 | For all dimensions, of either sign, a transpose of a split tensor that succeeds is right if and only if comparing the dimensions as written finds the place where the split dimension goes. |
| ShapePrograms.TransposeMixedSigns | sharktank/sharktank/ops/sharded_impls.py:1142-1152 | A one-row matrix split by columns and transposed as (0, -1) is put together by columns again. |
| Permutations.PermuteSplitSound | sharktank/sharktank/ops/sharded_impls.py:864-868 | A permute of a split tensor succeeds and is right if and only if looking the split dimension up twice in the permutation gives it back. |
| Permutations.RotationMisplaces | sharktank/sharktank/ops/sharded_impls.py:864-868 | Rotating three dimensions of a tensor split by the first one goes wrong. |
| Views.ViewSplitSound | sharktank/sharktank/ops/sharded_impls.py:1280-1308 | Whenever viewing a split tensor with positive dimensions succeeds, unsharding its result equals the row-major view of the unsharded tensor. |
| InferredViews.ViewSplitAsSound | sharktank/sharktank/ops/sharded_impls.py:1203-1308 | The same for shapes with a dimension that is inferred: whenever the view succeeds, its unsharded result is the row-major view of the unsharded tensor to the inferred shape. |
| InferredViews.PositiveViewIs | sharktank/sharktank/ops/sharded_impls.py:1203-1308 | Without a dimension to infer the view is the one to the shape as it is. |
| InferredViews.InferredSucceeds | sharktank/sharktank/ops/sharded_impls.py:1280-1308 | Where the view to the inferred shape succeeds, the view that leaves a dimension to infer succeeds with the same result, unless that dimension is the split one, is split further, and there are several shards; then it fails. |
| InferredViews.ViewSplitAsIsView | sharktank/sharktank/ops/sharded_impls.py:1294-1308 | That is what torch.view of the whole gives if and only if no dimension is below minus one. |
| InferredViews.MinusTwoViewed | sharktank/sharktank/ops/sharded_impls.py:1300-1308 | Two shards of one element each are viewed as minus two elements, which is no view of the whole. |
| Views.ViewKeepsSize | sharktank/sharktank/ops/sharded_impls.py:1294-1308 | Viewing succeeds only for a shape with as many elements as the tensor: rounding the shard size down never hides a difference. |
| SplitSuccess.ViewSucceeds | sharktank/sharktank/ops/sharded_impls.py:1280-1308 | A view that splits one dimension properly succeeds if and only if the shards are equally long and, should it be the split dimension, the shard count divides the first of the new dimensions. |
| Views.LargeDimIsShared | sharktank/sharktank/ops/sharded_impls.py:1226-1261 | When a reshape is classified as splitting one dimension, every later dimension of two or more lies in the part both shapes share. |
| SplitSuccess.ReshapeSplits | sharktank/sharktank/ops/sharded_impls.py:912-926 | A reshape that splits one dimension properly succeeds where the view does, and its unsharded result is the row-major view of the unsharded tensor. |
| SplitSuccess.ReshapeFlattens | sharktank/sharktank/ops/sharded_impls.py:912-926 | A reshape that merges a range of dimensions properly succeeds if and only if the split dimension is not in the range, or is its first and divisible by the shard count, and its unsharded result is the view of the unsharded tensor. |
| Views.ReshapeByFlattening | sharktank/sharktank/ops/sharded_impls.py:912-926 | A reshape that is carried out by flattening keeps the elements in place, and has the requested shape if and only if that has as many elements and ends in the dimensions after the flattened ones. |
| Views.ReshapeMissesShape | sharktank/sharktank/ops/sharded_impls.py:912-926 | Asked to reshape (2, 3, 5) to (6, 1, 5), a tensor split on the last dimension, into any number of shards, is returned as it was. |
| Views.ClassifierAssertion | sharktank/sharktank/ops/sharded_impls.py:1246-1248 | For positive shapes of equal size the assertion of the classifier fails if and only if the new shape inserts ones before a dimension other than one that at least as many ones precede already, but not only ones. |
| Views.ClassifierAssertionFails | sharktank/sharktank/ops/sharded_impls.py:1246-1248 | It fails for every reshape of (m, 1, n) to (m, 1, 1, n) with m and n not one. |
| Views.CompleteMatchIsNoMatch | sharktank/sharktank/utils/misc.py:12-18 | A match that exhausts the reversed iterators counts as none, so (1, n) to (1, 1, n) is still recognised. |
| ShardedOps.MatmulSound | sharktank/sharktank/ops/sharded_impls.py:676-774 | Whatever the kinds of the operands, a product that is carried out is the product of what they mean, unless a replicated operand is cut into shares that do not divide its columns; that is the case exactly if what they mean has no product. |
| ShardedSuccess.MatmulSucceeds | sharktank/sharktank/ops/sharded_impls.py:676-805 | For every combination of kinds, when a product is carried out, as a condition on the split dimensions, the parts and the wholes. |
| ShardedOps.SharesTimesRows | sharktank/sharktank/ops/sharded_impls.py:676-698 | A replicated matrix times one split by rows is the product of the columns that the rounded-down shares cover. |
| ShardedOps.ThirdColumnLost | sharktank/sharktank/ops/sharded_impls.py:676-698 | Three columns in two shares times a matrix of two rows succeeds, although there is no such product. |
| ShardedOps.InnerSound | sharktank/sharktank/ops/sharded_impls.py:753-774 | Splitting both operands along the summed dimension leaves partial products whose elementwise sum is the product. |
| ShardedOps.TooFewCopies | sharktank/sharktank/ops/sharded_impls.py:738-749 | A split matrix times a replicated one means the product if and only if there are at least as many copies as shards. |
| ShardedOps.SecondRowLost | sharktank/sharktank/ops/sharded_impls.py:738-749 | Two rows in two shards times one copy of a matrix lose the second row. |
| ShardedOps.UnarySound | sharktank/sharktank/ops/sharded_impls.py:270-280 | A pointwise function of a sharded tensor means the function of what the tensor means. |
| ShardedElementwise.BinarySound | sharktank/sharktank/ops/sharded_impls.py:282-394 | Whatever the kinds, ranks and shapes of the operands, an elementwise operation that is carried out is the broadcast operation on what they mean, unless they are not cut in the same places or rounded-down shares of a replicated one drop steps that the result needs; in the latter case it never is. |
| ShardedSuccess.BinarySucceeds | sharktank/sharktank/ops/sharded_impls.py:282-394 | Operands that can be combined as wholes, and are split alike or of which one can be brought to the parts of the other, are combined. |
| ShardedElementwise.SplitsRun | sharktank/sharktank/ops/sharded_impls.py:294-310 | Split operands that are cut in the same places along corresponding dimensions combine as soon as their first shards do. |
| Elementwise.ZipOfJoins | sharktank/sharktank/ops/sharded_impls.py:299-310 | Operands of any ranks that are cut at the same place of their broadcast shape, either one repeated along other dimensions, are combined part by part. |
| Alignment.NonEmptyAligned | sharktank/sharktank/ops/sharded_impls.py:282-394 | Operands without empty shards that are combined at all are cut in the same places, and shares drop steps if and only if the wholes cannot be combined. |
| Alignment.RightUnlessCrossed | sharktank/sharktank/ops/sharded_impls.py:282-394 | For nonempty operands with distinct elements, the operations that return their first and their second operand are both right if and only if the operands are cut in the same places and nothing is dropped. |
| Alignment.ThirdElementDropped | sharktank/sharktank/ops/sharded_impls.py:343-366 | A split vector of two combined with a replicated vector of three succeeds, although the wholes do not match. |
| Alignment.SecondMeetsFirst | sharktank/sharktank/ops/sharded_impls.py:294-310 | Shards of two elements and none, combined with two shards of one element each: the second element is combined with the first of the other operand. |
| BatchedProducts.BatchElement | sharktank/sharktank/ops/sharded_impls.py:782-787 | An element of a batched product is the sum over k of a row element times a column element of the matrices that the batch index selects in either operand. |
| BatchedProducts.BatchSplitsRight | sharktank/sharktank/ops/sharded_impls.py:776-787 | A batched product of tensors split along the same dimension that is carried out is the batched product of the wholes if a batch dimension is split in the same places or there is one shard, and, for nonempty shards, only then. |
| ShardedSuccess.BatchesSucceed | sharktank/sharktank/ops/sharded_impls.py:776-787 | Tensors whose batches are cut in the same places are multiplied if they can be as wholes. |
| BatchedProducts.RowsTimesRows | sharktank/sharktank/ops/sharded_impls.py:776-787 | Batches of two-by-one matrices split by rows are multiplied with each other, although there is no such product. |
| FeedForward.LinearSound | sharktank/sharktank/layers/linear.py:63-80 | A linear layer whose bias is cut where its product is, and loses nothing by being cut, means the linear layer on what the operands mean. |
| FeedForward.PositiveLinear | sharktank/sharktank/layers/linear.py:63-80 | For an input, a weight and a bias without empty dimensions that is always so, as soon as the layer runs, sharded and plain. |
| FeedForward.BlockComputes | sharktank/sharktank/layers/ffn_block.py:38-46 | On plain tensors that fit together the block runs, and every element of its result is the sum over j of activation(sum over k of h[k] gate[j,k] plus bias) times (sum over k of h[k] up[j,k] plus bias) times down[o,j], plus bias. |
| FeedForward.PlainLinear | sharktank/sharktank/layers/linear.py:63-80 | A plain linear layer runs if its shapes fit, and every element is the sum over k of x[k] w[o,k] plus the bias. |
| FeedForward.ForwardSound | sharktank/sharktank/layers/ffn_block.py:38-46 | For every mixture of sharded weights and every activation, if the operands of its sums and products are cut in the same places, the feed-forward block means the block on what its input and weights mean: where these fit together, every element is the sum over the hidden units of the activated gate times the up projection times the down weight. |
| FeedForward.PositiveForwardSound | sharktank/sharktank/layers/ffn_block.py:38-46 | For an input, weights and biases without empty dimensions, however they are sharded, if the block runs, sharded and plain, it means the block on what its input and weights mean, with the same elements. |
| FeedForward.TensorParallelBlock | sharktank/sharktank/types/sharding.py:111-129 | With gate and up split on the output, down split on the input in the same parts and no down bias, the block runs on a replicated input, and its partial results sum to the elements of the unsharded block. |
| FeedForward.ShardedBlockKeepsMeaning | sharktank/sharktank/types/sharding.py:111-183 | Sharding plain gate, up and down weights, and biases of gate and up, as the feed-forward sharding prescribes, for every shard count the split accepts, gives a block that runs and whose unsharded result has the elements that the weights prescribe. |
| FeedForward.DownBiasFails | sharktank/sharktank/types/sharding.py:177-183 | With a replicated down bias the same block does not run: no implementation adds a replicated tensor to partial sums. |
| ShardedPaging.ShardedPagedKVCache.IndexCopy | sharktank/sharktank/ops/sharded_impls.py:515-538 | The shard-wise index copy stores in every device slab what the plain one would store there. |
| ShardedPaging.ShardedPagedKVCache.IndexPut | sharktank/sharktank/ops/sharded_impls.py:541-554 | The shard-wise indexed assignment stores in every device slab what the plain one would store there. |
| ShardedPaging.ShardedPagedKVCache.Write | sharktank/sharktank/layers/kv_cache.py:485-526 | A sharded prefill write is, on every device, the plain write of its shard of the partitions. |
| ShardedPaging.ShardedPagedKVCache.WriteTimestep | sharktank/sharktank/layers/kv_cache.py:428-483 | A sharded decode write is, on every device, the plain write of its shard of the partitions. |
| ShardedPaging.ShardedPagedKVCache.IndexSelect | sharktank/sharktank/ops/sharded_impls.py:570-584 | The shard-wise index select yields on every device what that device stores for the sequences. |
| ShardedPaging.ShardedPagedKVCache.Read | sharktank/sharktank/layers/kv_cache.py:351-426 | A sharded read yields, for every partition and device, what the plain read of that device would. |
| ShardedPaging.MappedWrites | sharktank/sharktank/ops/sharded_impls.py:515-554 | Taking a slice of every stored value and then writing stores exactly the slices of what writing stores. |
| ShardedPaging.OwnedWrittenOnce | sharktank/sharktank/layers/kv_cache.py:428-526 | One call writes every cell of an owned page at most once. |
| ShardedPaging.ShardsFollow | sharktank/sharktank/ops/sharded_impls.py:515-584 | Through any sequence of calls a device table stays the given slice of the unsharded table, outside page 0. |
| ShardedPaging.ShardingIsInvisible | sharktank/sharktank/layers/kv_cache.py:351-526 | After any sequence of calls, for every device count that divides the heads, joining what the devices read at a position of an owned block gives what the unsharded cache reads there. |
| ShardedPaging.SlicesJoin | sharktank/sharktank/ops/sharded_impls.py:1085-1091 | Consecutive equal slices of the heads join to the heads. |
| ShardedState.ShardedStateIsPageTable | sharktank/sharktank/layers/kv_cache.py:281-325 | For every slab of the right shape, unflattening the sharded state and unsharding it on the head dimension gives the unsharded page table. |
| ShardedState.ShardStateStarts | sharktank/sharktank/layers/kv_cache.py:297-325 | A state made by sharding a slab starts every device with its slice of the heads at every position of the unsharded page table. |
| ShardedState.ShardedCacheReads | sharktank/sharktank/layers/kv_cache.py:281-526 | So from a sharded state on, through any sequence of calls, the joined reads of the devices are the reads of the unsharded cache. |
| QuantizedConvolution.KernelSumIs | sharktank/sharktank/ops/qconv_impls.py:123-133 | The sum of the weights of an output channel is the sum over the kernel window. |
| QuantizedConvolution.PooledSumIs | sharktank/sharktank/ops/qconv_impls.py:241-259 | The pooled channel sums of the input are the sums over the positions that a kernel sees. |
| QuantizedConvolution.CorrectedIs | sharktank/sharktank/ops/qconv_impls.py:120-164 | Whichever offsets are present, the raw convolution with its corrections is the convolution of the samples with their offsets taken off. |
| QuantizedConvolution.QConvMeans | sharktank/sharktank/ops/qconv_impls.py:89-189 | Whenever the quantised convolution succeeds, every element of its dequantised result is the triple sum, over input channels and kernel positions, of the padded samples times the weights, each less its offset and times its scale, plus the bias. |
| QuantizedConvolution.QConvRuns | sharktank/sharktank/ops/qconv_impls.py:89-189 | It succeeds if and only if the channels match, the kernel is not empty and fits into the padded image, and the weight does not have a list of one offset. |
| QuantizedConvolution.QConvShape | sharktank/sharktank/ops/qconv_impls.py:89-189 | The result has an image for each image, a channel for each kernel, and a position for each place at which the kernel fits into the padded image. |
| QuantizedConvolution.PaddingError | sharktank/sharktank/ops/qconv_impls.py:104-112 | Padding the raw samples with zeros instead of the values makes the result too small by the offset of the input times the weight that falls on the padding. |
| QuantizedConvolution.QConvPadded | sharktank/sharktank/ops/qconv_impls.py:89-189 | With equal padding, the result at a position is the triple sum of the values of the zero-padded input and the weight plus the bias if and only if the input has no offset or no weight falls on the padding there. |
| QuantizedConvolution.QConvExact | sharktank/sharktank/ops/qconv_impls.py:89-189 | So it is exact everywhere for a symmetric input, and for an asymmetric one without padding. |
| QuantizedConvolution.CornerNotZero | sharktank/sharktank/ops/qconv_impls.py:104-112 | An input with an offset whose result in a padded corner is not that of zero padding. |
| QuantizedConvolution.PaddingOrder | sharktank/sharktank/ops/qconv_impls.py:104-112 | The padding ends up on the dimensions it was asked for if and only if it is the same for both. |
| QuantizedLinear.SampleIs | sharktank/sharktank/ops/qlinear_impls.py:96-121 | Every corrected sample is the product of the shifted samples plus the input offset times the difference between the weight sum the correction needs and the one it uses. |
| QuantizedLinear.ShapedIff | sharktank/sharktank/ops/qlinear_impls.py:92-150 | The result has the expected shape if and only if the columns of input and weight agree and the input is symmetric, or the weight is square or has a single column. |
| QuantizedLinear.LinearMeans | sharktank/sharktank/ops/qlinear_impls.py:92-150 | An element of the dequantised quantised linear layer is the sum of the products of what the samples of input and weight stand for, plus the bias, if and only if a scale is zero, the input offset is missing or zero, or the row sum and the column sum of the weight agree. |
| QuantizedLinear.AsymmetricInputOff | sharktank/sharktank/ops/qlinear_impls.py:103-109 | A two by two weight for which the correction of an asymmetric input is wrong. |
| ScaledLayouts.DequantProductOf | sharktank/sharktank/types/layouts.py:166-181 | The product of two dequantised samples is the product of the scales times the product of the shifted samples. |
| Einsum.MkMenkMenIsEinsum | sharktank/sharktank/ops/default_impls.py:72-81 | For all sizes the unsqueezed, flattened batched product runs and every element is the sum over k of x[m,k] w[m,e,n,k]. |
| Einsum.MekMenkMenIsEinsum | sharktank/sharktank/ops/default_impls.py:84-94 | For all sizes it runs and every element is the sum over k of x[m,e,k] w[m,e,n,k]. |
| Einsum.MeMenMenIsEinsum | sharktank/sharktank/ops/default_impls.py:97-105 | For all sizes it runs and every element is x[m,e] w[m,e,n]. |
| Dispatch.SignatureDispatcher.constructor | sharktank/sharktank/ops/_registry.py:191-194 | A new dispatcher has no registrations. |
| Dispatch.SignatureDispatcher.Register | sharktank/sharktank/ops/_registry.py:211-234 | Registering keeps the table in salience order and the cache consistent with the registrations so far, the new one included. |
| Dispatch.SignatureDispatcher.FindOverrides | sharktank/sharktank/ops/_registry.py:236-244 | A lookup, cached or not, returns what recomputing from all registrations in their order would return, and leaves the registrations alone. |
| Dispatch.SignatureDispatcher.MatchTargets | sharktank/sharktank/ops/_registry.py:276-307 | The matching loop returns the matching overrides in table order, or raises exactly if matching one of them does: one that combines a type expression with further arguments. |
| Dispatch.SortIsStable | sharktank/sharktank/ops/_registry.py:211-234 | The sorted registrations are in order of salience, and those of equal salience stay in order of registration. |
| Dispatch.SortIsUnique | sharktank/sharktank/ops/_registry.py:211-234 | There is only one such order. |
| Dispatch.MatchingSort | sharktank/sharktank/ops/_registry.py:276-307 | Filtering the sorted registrations and sorting the filtered ones give the same list. |
| Dispatch.FoundOrder | sharktank/sharktank/ops/_registry.py:211-307 | A lookup finds exactly the overrides that apply, highest salience first and latest registered first among equals. |
| Dispatch.MatchesApplies | sharktank/sharktank/ops/_registry.py:276-307 | An override matches if and only if its only expectation is a type expression that holds, or there is an expectation for every argument and each is nothing, a superclass, or a tensor type where the argument is a primitive tensor and may be unboxed or a quantised one and may be dequantised; matching raises if and only if it combines an expression with other expectations and gets to it. |
| Dispatch.FoundUnlessMixed | sharktank/sharktank/ops/_registry.py:236-307 | A lookup raises if and only if some registered override combines an expression with other expectations and matching gets to it. |
| DispatchTuner.AuxiliaryUnique | tuner/tuner/dispatch_constraints.py:75-144 | The tile counts and the thread count are determined by the other variables, so excluding all variables excludes exactly one configuration. |
| DispatchTuner.SolutionSound | tuner/tuner/dispatch_constraints.py:46-144 | Every solution has tiles that divide the problem, at most 1024 threads and at most 64 KiB of shared memory. |
| DispatchTuner.SolutionExact | tuner/tuner/dispatch_constraints.py:75-144 | The constraints can be met for a configuration if and only if it meets conditions on its twelve variables alone, in which the tile counts are quotients and the thread count is 64 times the subgroups. |
| DispatchTuner.SolutionIsCandidate | tuner/tuner/dispatch_constraints.py:75-144 | Every solution lies in a finite box. |
| DispatchTuner.GenerateSolutions | tuner/tuner/dispatch_constraints.py:176-266 | With any solver that answers correctly the loop terminates, yields only solutions and none twice, and yields every solution unless the solver gives up. |
| Nibbles.InterleaveLinearized | sharktank/sharktank/types/layout_utils.py:20-64 | Interleaving undoes linearizing on blocks of even length. |
| Nibbles.LinearizeInterleaved | sharktank/sharktank/types/layout_utils.py:20-64 | Linearizing undoes interleaving on blocks of even length. |
| Nibbles.PromoteLinearized | sharktank/sharktank/types/layout_utils.py:20-86 | Promoting a linearized block gives all low nibbles and then all high nibbles, in order. |
| Nibbles.LinearizeReads | sharktank/sharktank/types/layout_utils.py:20-64 | A linearized block holds byte for byte the lower half bytes of neighbours, in arithmetic of division and remainder, and then the upper ones. |
| Nibbles.OddBlocks | sharktank/sharktank/types/layout_utils.py:20-64 | Interleaving a block of odd length fails, and so does linearizing it, except that a single byte becomes nothing. |
| Nibbles.Promote4Reads | sharktank/sharktank/types/layout_utils.py:67-86 | Promotion yields the remainder and the quotient of every byte by 16. |
| Nibbles.Promote2Reads | sharktank/sharktank/types/layout_utils.py:89-101 | Two-bit promotion yields the four digits of every byte to base 4, the lowest first. |
| Nibbles.Promote6Reads | sharktank/sharktank/types/layout_utils.py:104-113 | A six-bit value is the four-bit one plus 16 times the two-bit one. |
| Nibbles.SignedPromotion | sharktank/sharktank/types/layout_utils.py:67-86 | The signed promotion is the two's-complement reading of the unsigned one. |
| Nibbles.PackPromoted | sharktank/sharktank/types/layout_utils.py:104-113 | The six-bit promotion of a four-bit and a two-bit plane loses nothing: the planes can be packed again. |
| Nibbles.PromotePacked | sharktank/sharktank/types/layout_utils.py:89-113 | Every sequence of six-bit values, in multiples of four, is the promotion of its packed planes. |
| Quantizers.RoundNearest | sharktank/sharktank/types/layout_utils.py:150-176 | Rounding gives a nearest integer, and the even one of two. |
| Quantizers.SaturateNearest | sharktank/sharktank/types/layout_utils.py:150-176 | A saturating cast gives the nearest value of the integer type. |
| Quantizers.QuantizeDequantized | sharktank/sharktank/types/quantizers.py:134-183 | Quantising a dequantised sample of the type gives the sample back; along an axis this needs the two scales to be reciprocal. |
| Quantizers.QuantizeNearest | sharktank/sharktank/types/quantizers.py:153-183 | A quantised value fits its type and no other sample of the type dequantises nearer to the value; along an axis this needs the two scales to be reciprocal. |
| Quantizers.DynamicBound | sharktank/sharktank/types/quantizers.py:368-389 | Dynamic quantisation never saturates; where a is the largest magnitude, every element dequantises to within the larger of a and eps over twice the largest integer, and an element of magnitude a, if that is at least eps, becomes the largest integer with its sign. |
| Quantizers.LargestExists | sharktank/sharktank/types/quantizers.py:368-389 | Every nonempty tensor has a largest magnitude, one that bounds all elements and is attained. |
| ThetaNames.JoinSplit | sharktank/sharktank/types/theta.py:292-297 | Splitting a name at its dots and joining the parts gives the name back. |
| ThetaNames.SplitJoin | sharktank/sharktank/types/theta.py:292-297 | Joining parts without dots and splitting the name gives the parts back. |
| ThetaNames.AddGet | sharktank/sharktank/types/theta.py:251-264 | Adding a value at a path makes it retrievable there and changes nothing at unrelated paths. |
| ThetaNames.AddOnly | sharktank/sharktank/types/theta.py:251-264 | Adding a value makes no other leaf appear. |
| ThetaNames.AddFails | sharktank/sharktank/types/theta.py:251-264 | Adding fails if and only if a value lies at a shorter part of the path. |
| Parameters.FlatToNestedDict | sharktank/sharktank/types/theta.py:227-270 | The loop over a flat dictionary adds its entries one after the other, and fails as soon as one does. |
| Parameters.NestAll | sharktank/sharktank/types/theta.py:227-270 | Names of which none is a dotted prefix of another all become leaves, with their values. |
| Parameters.RoundTrip | sharktank/sharktank/types/theta.py:122-134 | Nesting succeeds and flattening restores the dictionary if and only if no name is a dotted prefix of another and none starts with a dot. |
| Parameters.LeadingDotLost | sharktank/sharktank/types/theta.py:227-270 | A dictionary with the one name .weight nests, but comes back with another name. |
| Parameters.BelowPath | sharktank/sharktank/types/theta.py:110-120 | A name continues another one at a dot, or equals it, if and only if its parts begin with the other's parts. |
| Parameters.StartingIsSubtree | sharktank/sharktank/types/theta.py:110-120 | Selecting by string prefix selects exactly the subtree if and only if every selected name equals the path or continues it at a dot. |
| Parameters.NormTakenAlong | sharktank/sharktank/types/theta.py:110-120 | Selecting attn_output selects attn_output_norm.weight, which is not below it. |
| Parameters.PopSplits | sharktank/sharktank/types/theta.py:110-120 | The parts of a flat view nest into trees with just these parts as flat views if and only if in each part no name is a dotted prefix of another; the parts are disjoint and together are the whole. |
| Parameters.Theta.AccumInto | sharktank/sharktank/types/theta.py:122-134 | The recursive collection puts every leaf of the tree under its dotted name. |
| Parameters.Theta.Pop | sharktank/sharktank/types/theta.py:110-120 | Popping nests the names that start with the path and the others into two trees, and fails if one part does not nest; if no name of the tree is a dotted prefix of another, it succeeds and the two flat views are disjoint and together are the original. |

## Where the code does not do what its callers may expect

Each of these is a theorem of the project about the code as it is.

* A batch that fails to start for lack of pages leaks the pages it already took (`ServingRuns.PagesConserved`,
  `ServingRuns.LeakingRun`).
* `reshape` of a split tensor can return a tensor of another shape than the requested one (`Views.ReshapeByFlattening`,
  `Views.ReshapeMissesShape`), and the reshape classifier fails its own assertion when ones are inserted after ones
  (`Views.ClassifierAssertion`, `Views.ClassifierAssertionFails`). Its search over reversed iterators measures exhausted
  iterators, which hides the failure if only ones precede (`Views.CompleteMatchIsNoMatch`);
  `sharktank/sharktank/utils/misc.py:12-14` documents the greatest common range. `view` takes minus the number of shards for
  a dimension to infer (`InferredViews.ViewSplitAsIsView`, `InferredViews.MinusTwoViewed`).
* `transpose`, `flatten` and `unflatten` of a split tensor with dimensions counted from the end do not move the split
  dimension along (`TrackedDims.OpExact`, `TrackedDims.ColumnsStayTogether`, `ShapePrograms.TransposeTracks`,
  `ShapePrograms.TransposeMixedSigns`), and `permute` looks it up the wrong way round (`Permutations.PermuteSplitSound`,
  `Permutations.RotationMisplaces`).
* Making a replicated tensor a split one drops the remainder of a dimension that the shard count does not divide
  (`Slices.ReshardKeepsMeaning`, `Slices.ThirdElementLost`). So a replicated matrix times one split by rows can succeed
  although the shapes do not match (`ShardedOps.MatmulSound`, `ShardedOps.ThirdColumnLost`), and so can combining a
  split tensor with a replicated one of another size (`ShardedElementwise.BinarySound`, `Alignment.ThirdElementDropped`).
* Split tensors are combined shard by shard without a comparison of the sizes of their shards. The comparison of the shape
  of the result catches this unless some shards are empty (`Alignment.NonEmptyAligned`, `Alignment.RightUnlessCrossed`,
  `Alignment.SecondMeetsFirst`); for batched products nothing does (`BatchedProducts.BatchSplitsRight`,
  `BatchedProducts.RowsTimesRows`).
* A product of a split with a replicated matrix drops rows without an error if there are fewer copies than shards
  (`ShardedOps.TooFewCopies`, `ShardedOps.SecondRowLost`).
* The feed-forward sharding replicates the bias of the down projection, but the block then does not run
  (`FeedForward.DownBiasFails`).
* The quantised convolution exchanges the padding of height and width (`QuantizedConvolution.PaddingOrder`) and pads an
  asymmetric input with raw zeros (`QuantizedConvolution.QConvPadded`, `QuantizedConvolution.CornerNotZero`). The quantised
  linear layer sums the weight over the wrong dimension for an asymmetric input (`QuantizedLinear.LinearMeans`,
  `QuantizedLinear.AsymmetricInputOff`).
* `Theta.pop` takes every name that starts with the path as a string, so popping `attn_output` also takes
  `attn_output_norm` (`Parameters.StartingIsSubtree`, `Parameters.NormTakenAlong`), and names that start with a dot do not
  survive nesting and flattening (`Parameters.RoundTrip`, `Parameters.LeadingDotLost`).

## Left out

- Input and output, command lines, archives, export and compilation, benchmarks, kernels, the tokenizers and the bindings.
- Floating-point rounding, eight-bit floats, softmax, normalisation and the numerics of attention.
- Transfers between devices, which are the identity on values.
- The bookkeeping of results and finished rows of the generator.
- Generator.TorchGenerator.AllocPage: the branch for the direct cache, which hands out page 0 every time.
- Generator.TorchGenerator.ReleasePage: the branch for the direct cache, which does nothing.
- The dtype conversions of the caches.
- Paging.PagedKVCache.Read: the buffers that the caller gives are not filled, and rows are selected one sequence after the other, not through one flattened index tensor.
- Paging.PagedKVCache.constructor: the numbers of heads and head dimensions, and the check that the shards can share the heads, appear only in ShardedState.
- Paging.PagedKVCache.Write: which of several writes to the padding page comes last is not specified, and a position is one opaque value, so the order of heads and head dimensions within it appears only in ShardedPaging and ShardedState.
- Generator.Batch.Prefill: a batch is prefilled once, while it is new; the lengths of the prompts and the keys and values are given, not computed from tokens.
- Generator.Batch.Decode: the keys and values of the new token are given; the limit of the context length and the temporary buffers of the attention block are not modelled.
- PageBudget.EvaluationOnBudget: the evaluation on one batch, starting from a new generator, as the source runs it.
- ShapePrograms.SplitOpSound: flatten, unflatten and transpose with dimensions counted from the front, except for the end of a flattened range; TrackedDims covers all dimensions. Sizes of minus one in unflatten are not modelled.
- ShapePrograms.SplitProgramSound: the same; TrackedDims.ProgramTracks covers all dimensions.
- Views.ViewSplitSound: shapes without inferred dimensions; InferredViews.ViewSplitAsSound covers these. Views of tensors without elements are not modelled.
- ShapePrograms.TransposeTracks: more than one shard and no empty dimension.
- TrackedDims.OpExact: more than one shard, no empty dimension and distinct elements.
- Permutations.PermuteSplitSound: more than one shard and no empty dimension.
- ShardedOps.MatmulSound: the right operand is a matrix; of batched right operands only those split along the same dimension as the left one are modelled, in BatchedProducts.
- ShardedElementwise.BinarySound: operands of the same element type; numbers as second operands are pointwise functions.
- FeedForward.LinearSound: quantizers and the pre-multiplied input of a linear layer are not modelled.
- QuantizedConvolution.QConvMeans: one group, no dilation, one scale for the input, one scale or one per output channel for the weight; 32-bit overflow of the sums and custom kernels are not modelled. A failing squeeze of a per-channel weight with a single output channel is a failure of the model too.
- QuantizedLinear.LinearMeans: two-dimensional operands with per-tensor or per-row scales that have the right shapes; the eight-bit float path is not modelled.
- Einsum.MkMenkMenIsEinsum: operands of the shapes that the einsum notation asks for.
- Dispatch.SignatureDispatcher.FindOverrides: the trampolines that choose among the found overrides, and the error message when none matches.
- DispatchTuner.GenerateSolutions: the solver is a function from the excluded configurations to an answer; an answer that it gives up ends the loop, as in the source, and is reported. The matrix intrinsics are given as a list, and the choice of a lowering configuration for a solution is not modelled.
- Nibbles.InterleaveLinearized: blocks of odd length, for which the source fails or, for a single byte, loses it.
- Quantizers.QuantizeNearest: integer types; a cast without saturation is not modelled where it overflows.
- Parameters.FlatToNestedDict: entries that are dictionaries themselves, and values that are None.
- Parameters.Theta.constructor: the source nests the dictionary that it is given; here the tree is given nested.
- Parameters.Theta.Pop: the names are those of the flat view, not the names stored in the tensors.
