# Atomic GPT explorer, modelled in Dafny

Atomic GPT explorer is a tiny character-level GPT written in Go:

- **Autograd.** A scalar autograd engine (`Value`: data, gradient, children, local derivatives).
- **Model.** `NewModel` builds the vocabulary from the training documents, plus one control token that serves as both BOS and `<END>`. It then creates every weight matrix from fresh parameters.
- **Layers.** Linear, Softmax and RMSNorm.
- **Forward pass.** `Forward` is a one-token step with a key/value cache per layer. It uses multi-head attention and a ReLU MLP, each with a residual connection.
- **Optimiser.** An Adam step, `Update`.
- **Training.** `trainOneExample` runs a teacher-forced pass with cross-entropy loss. `TrainBatchedSteps` accumulates gradients over mini-batches.
- **Generation.** The generation loops (`GenerateSample`, `GenerateSampleWithTrace`) turn logits into a distribution:
  - temperature scaling
  - optional top-k masking
  - `<END>` suppressed until a minimum length
  - renormalisation with a uniform fallback
  
  They then pick a token by inverse-CDF sampling.

The Dafny project models these operations over mathematical reals and proves what they promise. Each file holds one module:

| file | module | what it holds |
|---|---|---|
| `math.dfy` | `Transcendental` | exp, log, pow and sqrt as a parameter record, with the laws the code relies on |
| `vectors.dfy` | `Vectors` | sums, prefix sums, dot products and scaling, with their algebra |
| `autograd.dfy` | `Autograd` | the node arena and the operations that build nodes |
| `topo.dfy` | `Topo` | the depth-first topological order of `Backward` |
| `backward.dfy` | `Backprop` | gradient accumulation and its chain-rule specification |
| `vocab.dfy` | `Vocabulary` | the sorted, duplicate-free rune list |
| `params.dfy` | `Params` | configuration, parameter layout and `NewModel` |
| `layers.dfy` | `Layers` | Linear, Softmax, RMSNorm |
| `forward.dfy` | `Transformer` | attention heads, blocks and `Forward` |
| `adam.dfy` | `Adam` | `Model.Update` |
| `ranking.dfy` | `Ranking` | ordering token indices by probability |
| `sampling.dfy` | `Sampling` | option clamping, `toProbVector`, `sampleFromProbVector`, `topKCandidates` |
| `training.dfy` | `Training` | `encodeDoc`, `trainOneExample`, `TrainBatchedSteps` |
| `generation.dfy` | `Generation` | both generation loops |

Three design choices shape the model:

- **Graph nodes.** A graph node is an index into a sequence, and every child index is below its parent's. Because `Model.State` and `Model.Params` share the same `*Value` objects, each matrix is a matrix of parameter indices.
- **Random draws.** These are parameters of the model:
  - `gauss(k)` for the k-th initial weight
  - `draw(step, slot)` for the document of a batch slot
  - `u(pos)` for the uniform draw at a generation position
- **Generation loops.** Both loops are proved equal to one reference unrolling, `Generation.Unroll`. Its properties (when it stops, what each trace row shows) therefore carry over to both loops.

## Model

| member | source | states |
|---|---|---|
| Autograd.NewValue | autograd.go:22-25 | The new leaf holds `data`, has zero gradient and no children, and is appended after the existing nodes, so the graph stays well formed. |
| Autograd.Add | autograd.go:27-37 | z = x + y with children [x, y] and local derivatives [1, 1]; earlier nodes are untouched. |
| Autograd.AddLocalGradsExact | autograd.go:27-37 | Add's local derivatives predict the change of z exactly for any change (dx, dy) of its inputs. |
| Autograd.Mul | autograd.go:39-49 | z = x * y with local derivatives [y, x]. |
| Autograd.MulLocalGradsFirstOrder | autograd.go:39-49 | Mul's local derivatives give the first-order change of the product; what they miss is exactly dx*dy. |
| Autograd.Pow | autograd.go:51-60 | z = x^p with local derivative p * x^(p-1). |
| Autograd.Log | autograd.go:62-71 | z = ln x, and its local derivative times x is 1, so it is the reciprocal 1/x. |
| Autograd.Exp | autograd.go:73-83 | z = e^x, and its local derivative equals z's own value. |
| Autograd.Relu | autograd.go:85-100 | The value is max(0, x): non-negative, at least x, and equal to x or 0. The local derivative is 1 exactly when x > 0 and 0 exactly when x <= 0. |
| Autograd.ReluLocalGradExact | autograd.go:85-100 | Away from the kink, Relu's local derivative predicts the change exactly for any step too small to cross 0. |
| Topo.Visit | autograd.go:112-122 | One buildTopo call:<br>- it visits and emits exactly the nodes reachable from n that were not yet visited;<br>- it keeps the emitted list a duplicate-free post-order;<br>- it emits n last when n was new. |
| Topo.VisitAll | autograd.go:118-120 | The loop over the children visits and emits exactly the union of what each child reaches. |
| Topo.TopoOrder | autograd.go:109-123 | The order lists every node reachable from the root exactly once, children before parents, with the root last. |
| Backprop.Propagate | autograd.go:127-130 | One node pushes local derivative times its own gradient into each child, once per occurrence. Nodes that are not children are unchanged. |
| Backprop.Backward | autograd.go:108-132 | Only gradients change, and the root's becomes 1. Every other node's new gradient is its old one plus what its parents push into it (the chain rule). Nodes the root cannot reach keep their gradient. |
| Backprop.NothingIncoming | autograd.go:109-131 | The root and the nodes it cannot reach receive nothing from the walk. |
| Backprop.AddSelfFeedsTwice | autograd.go:126-131 | For z = x + x, x appears twice among z's children and receives twice z's gradient. |
| Vocabulary.Alphabet | model.go:54-59 | The set holds exactly the runes that occur in some document. |
| Vocabulary.BuildChars | model.go:54-65 | The rune list is strictly sorted and holds exactly the runes of the documents. |
| Vocabulary.SortedUnique | model.go:61-65 | Two strictly sorted lists with the same elements are equal, so the vocabulary is determined by the documents alone. |
| Vocabulary.SortedCardinality | model.go:61-65 | The vocabulary has exactly one entry per distinct rune. |
| Params.CreateMatrix | model.go:79-91 | createMatrix gives a rows-by-cols matrix. |
| Params.FlatCreate | model.go:79-91 | Read row by row, the matrix holds the consecutive parameter indices start .. start+rows*cols-1, in the order they join Params. |
| Params.AreaIsProduct | model.go:79-91 | The number of entries created row by row is rows * cols. |
| Params.CreateLayersAt | model.go:99-106 | Block i starts right after the 12*n*n parameters of each earlier block. |
| Params.FlatCreateLayers | model.go:99-106 | The blocks' matrices together hold one contiguous range of parameter indices. |
| Params.CreateWeightsLayout | model.go:93-106 | All matrices, in creation order, hold exactly the indices 0 .. count-1: each parameter appears in exactly one matrix entry, in Params order. |
| Params.CountClosedForm | model.go:93-106 | The parameter count is (2V + B)·n + 12·L·n², for vocabulary V, block size B, width n and L layers. |
| Params.CreateWeightsShaped | model.go:93-106 | Every matrix has the shape NewModel gives it. |
| Params.NewModel | model.go:53-112 | The new model:<br>- keeps the model invariant;<br>- has a vocabulary of exactly the documents' distinct runes;<br>- has the closed-form number of parameters, each 0.02·gauss(k) with zero gradient;<br>- has zero Adam moments and step 0. |
| Params.InvBelow | model.go:85-87 | Every matrix entry of a model names one of its parameters. |
| Params.LookupReadsData | model.go:85-87 | A matrix reads only the data of the parameters it names: parameter lists that agree on every value give the same matrix, whatever their gradients. |
| Params.ValuesReadData | model.go:85-87 | The state matrices and the parameter list share each value, and Forward reads only the data. So two models that differ only in gradients read the same weights. |
| Training.GradWritesKeepValues | inference_and_training.go:180-183 | Clearing the gradients or setting them to the scaled batch gradients keeps the model invariant and leaves unchanged every weight Forward reads. |
| Params.Values | model.go:34-45 | The weights read from the parameters have the configured shapes. |
| Layers.Linear | model.go:117-127 | There is one output per row of W, each the dot product of that row with x. |
| Layers.LinearAdditive | model.go:117-127 | W(x + y) = Wx + Wy. |
| Layers.MaxLogit | model.go:133-138 | The running maximum is at least -MaxFloat64 and bounds every logit. It equals some logit, unless it is still -MaxFloat64. |
| Layers.SoftmaxDistribution | model.go:132-154 | For a non-empty input, every probability is positive and together they sum to 1. |
| Layers.RMSNormUnit | model.go:158-171 | After normalisation the mean square is ms/(ms + 1e-5), where ms is the input's mean square. |
| Transformer.HeadSpanFits | forward.go:23-43 | The heads never reach past the embedding width. The columns left unused are exactly nEmbd mod nHead. |
| Transformer.WeightedSumBounds | forward.go:58-66 | With non-negative weights, the weighted sum lies between lo and hi times the total weight. |
| Transformer.HeadWithinValues | forward.go:45-66 | Attention mixes the cached values convexly: each output column lies between the smallest and largest cached value in that column. |
| Transformer.SoftmaxSingle | model.go:132-154 | The softmax of a single score is [1]. |
| Transformer.HeadFirstPosition | forward.go:45-66 | With one cached position, a head returns its slice of that position's value vector. |
| Transformer.FirstPositionCopiesValue | forward.go:39-68 | At position 0, multi-head attention returns the current value vector itself. |
| Transformer.RunLayers | forward.go:26-87 | Each layer that runs appends exactly one key and one value, of width nEmbd, to its own cache. All other caches are unchanged, and the hidden vector keeps width nEmbd. |
| Transformer.Forward | forward.go:13-91 | There is one logit per vocabulary entry. Every layer's cache is extended by exactly one entry, so the caches still fit the next call. |
| Adam.SecondMoment | model.go:182 | The second moment stays non-negative. |
| Adam.CorrectionPositive | model.go:185-186 | The bias correction 1 - beta^t is positive from the first step on. |
| Adam.Corrected | model.go:185-186 | The bias-corrected moment has the sign of the moment. |
| Adam.Denominator | model.go:186-188 | sqrt(vHat) + eps is positive. |
| Adam.MoveOpposesMoment | model.go:188 | With a positive learning rate, the step has the sign of the first moment. |
| Adam.Update | model.go:174-191 | The step counter goes up by one. For every parameter:<br>- both moments are updated;<br>- the data moves by lr·mHat/(sqrt(vHat)+eps) at the new step;<br>- the gradient is reset to 0.<br>Configuration, vocabulary and layout are unchanged, and the model invariant is kept. |
| Adam.UpdateAtRest | model.go:181-189 | A parameter with zero gradient and zero first moment does not move. |
| Adam.UpdateDescends | model.go:181-188 | With a positive learning rate, a parameter moves against the sign of its new first moment. |
| Ranking.BestAt | inference_and_training.go:77-79 | Picks the most probable remaining index, the first one on ties. |
| Ranking.SortDescElems | inference_and_training.go:73-79 | The sort neither loses nor invents indices. |
| Ranking.SortDescDescending | inference_and_training.go:77-79 | Probabilities never increase along the sorted list. |
| Ranking.SortDescDistinct | inference_and_training.go:73-79 | The sorted list of distinct indices stays duplicate-free. |
| Ranking.RankedFacts | inference_and_training.go:254-260 | The ranking lists every token index exactly once, most probable first. |
| Ranking.RankedSplit | inference_and_training.go:262-270 | Every index among the first k ranked is at least as probable as every index left out. |
| Sampling.SamplingConfig | inference_and_training.go:211-225 | The result always has a positive temperature and a non-negative minimum length, and is valid for any vocabulary size >= 0. Valid options pass through unchanged. A non-positive temperature becomes 0.7. |
| Sampling.SamplingConfigIdempotent | inference_and_training.go:211-225 | Clamping twice is clamping once. |
| Sampling.TokenLabel | inference_and_training.go:13-18 | The label is "<END>" exactly for the control token; otherwise it is the token's rune. |
| Sampling.Scaled | inference_and_training.go:230-237 | Multiplying a scaled logit by the temperature gives back the logit. |
| Sampling.RawTimesTemperature | inference_and_training.go:229-237 | toProbVector's first result, multiplied by the temperature, gives back the logits. |
| Sampling.Mask | inference_and_training.go:253-271 | Top-k masking keeps an entry exactly when its index is among the k most probable, and zeroes it otherwise. |
| Sampling.DistributionPositive | inference_and_training.go:239-250 | Before masking, every token has positive probability. |
| Sampling.FallbackOnlyWhenEndWasAlone | inference_and_training.go:273-301 | The uniform fallback is reached only when <END> is suppressed and in range, and every other token had already been masked out by top-k. |
| Sampling.FallbackDistribution | inference_and_training.go:286-301 | The fallback is a distribution. |
| Sampling.RenormalizeDistribution | inference_and_training.go:277-301 | Renormalising non-negative weights gives a distribution, whichever branch is taken. |
| Sampling.ProbsDistribution | inference_and_training.go:229-304 | For any non-empty logits, the final vector is non-negative and sums to 1. |
| Sampling.EndSuppressed | inference_and_training.go:273-301 | With suppression on and more than one token, <END> gets probability 0, even through the fallback. |
| Sampling.AtMostTopK | inference_and_training.go:253-285 | Unless the fallback is taken, only the top-k tokens can have non-zero probability. |
| Sampling.SampleFromProbVector | inference_and_training.go:45-69 | The chosen token is the first whose cumulative interval contains u, with that interval and probability reported. If no interval contains u, the result is the fallback token, with probability 0 and the whole total as the end of the interval. |
| Sampling.FirstCrossingUnique | inference_and_training.go:54-64 | The first crossing is unique. |
| Sampling.DistributionAlwaysCrosses | inference_and_training.go:45-69 | For a distribution and u in [0, 1), some token's interval always contains u, so the fallback is never used. |
| Sampling.MiddleTokenExample | inference_and_training.go:54-64 | With probabilities [0, 1, 0], every draw selects token 1. |
| Sampling.TopMostProbable | inference_and_training.go:73-82 | The first k ranked indices are in range, pairwise distinct and in non-increasing probability. Every index left out is at most as probable as each of them. |
| Sampling.TopKCandidates | inference_and_training.go:72-94 | There are min(k, |probs|) candidates. Each describes its token's label, logit and probability. The candidates are pairwise distinct, with non-increasing probability. Every token left out is at most as probable as every listed one, so the list holds the k most probable tokens. |
| Training.Find | inference_and_training.go:28-33 | The inner loop finds the first index holding the rune. |
| Training.Ids | inference_and_training.go:27-34 | Decoding the ids gives back exactly the document's runes that are in the vocabulary. |
| Training.EncodeDoc | inference_and_training.go:25-37 | The control token is at both ends and every inner id is a rune index. Decoding the inner ids gives back the known runes of the document. |
| Training.KnownAll | inference_and_training.go:27-34 | A document whose runes are all in the vocabulary is kept whole. |
| Training.ModelEncodesDocs | inference_and_training.go:25-37 | Every training document of a model built from those documents round-trips through encodeDoc. |
| Training.TeacherForceCacheLength | forward.go:34-35 | After count teacher-forced positions, every layer's cache holds exactly count keys and count values. So the attention at position pos weighs pos + 1 entries, its own included. |
| Training.TeacherForcePrefix | inference_and_training.go:123-127 | Teacher forcing is incremental: the first positions of a longer pass are the shorter pass. |
| Training.SoftmaxEntry | inference_and_training.go:125-126 | Each softmax probability lies in (0, 1]. |
| Training.LossesNonNegative | inference_and_training.go:126 | Every per-position cross-entropy -log p is non-negative. |
| Training.Positions | inference_and_training.go:103-106 | The number of trained positions is min(len(tokens) - 1, blockSize). |
| Training.Report | inference_and_training.go:130-144 | The predicted token is the first most probable one. Its probability is at least the target's. The labels are those of the context and target tokens. |
| Training.Score | inference_and_training.go:147-163 | The loss is non-negative, the target probability lies in (0, 1], and the predicted probability is at least the target's. |
| Training.TrainOn | inference_and_training.go:111-163 | The teacher-forced loop computes exactly the example that the reference definition gives. |
| Training.TrainOneExample | inference_and_training.go:99-164 | It fails, with "training sequence is empty", exactly when the block size is not positive. Otherwise it returns the example computed for the model's current weights. |
| Training.Drawn | inference_and_training.go:100 | The document drawn is one of the training documents. |
| Training.AtLeastOne | inference_and_training.go:169-174 | A count below 1 becomes 1; larger counts pass through. |
| Training.OptimizerStep | inference_and_training.go:180-201 | One optimiser step advances the step counter by one, clears every gradient, and keeps the model invariant and layout. |
| Training.AddExample | inference_and_training.go:186-192 | One batch slot adds its example's gradients and loss to the running totals, or fails with the example's error. |
| Training.RunBatch | inference_and_training.go:185-193 | The batch accumulates, from zero, the gradients and losses of its b examples and keeps the last example's response. It fails exactly when an example does. |
| Training.TrainStep | inference_and_training.go:179-203 | Running count+1 steps is one more optimiser step on the progress after count steps. |
| Training.Train | inference_and_training.go:179-203 | After count steps the counter has grown by count, the layout is unchanged and the loss sum is non-negative. After at least one step, every gradient is 0, as Update leaves it. |
| Training.TrainBatchedSteps | inference_and_training.go:168-208 | It fails, with every gradient cleared, exactly when the block size is not positive. Otherwise the model is the result of max(1, stepsPerCall) optimiser steps. The response is the last example's, with the new step count and the mean over steps of the batch-mean losses. On success every gradient is 0. |
| Generation.Text | inference_and_training.go:324-328 | The text has one rune per chosen id, each from the vocabulary. |
| Generation.RankFrom | inference_and_training.go:349-355 | The rank is the 1-based position of the first candidate with the chosen id, or len(probs) when none has it. |
| Generation.Record | inference_and_training.go:372-391 | The loop ends exactly when the control token is drawn. The ids stay inside the vocabulary. |
| Generation.Iteration | inference_and_training.go:341-392 | One position appends exactly one trace row. It appends one id unless <END> was drawn. The caches still fit. |
| Generation.Unroll | inference_and_training.go:314-326 | After n positions, either every position produced a row and an id, or the last row drew <END> and produced no id. |
| Generation.UnrollCacheLength | forward.go:34-35 | In the generation loop, every layer's cache holds one key and one value per trace row. So the attention at position pos weighs pos + 1 entries. |
| Generation.UnrollStops | inference_and_training.go:385-388 | Once <END> is drawn, later positions change nothing. |
| Generation.UnrollChronicle | inference_and_training.go:372-383 | Trace row i:<br>- is at position i and reports draw u(i);<br>- shows as context the first i runes of the text;<br>- shows as chosen character the i-th rune, or <END> on the stopping row. |
| Generation.EndedIffEndShown | inference_and_training.go:377-388 | The loop stopped on <END> exactly when the last trace row shows "<END>". |
| Generation.EndNotBeforeMinLen | inference_and_training.go:316-321 | With at least one rune in the vocabulary and draws in [0, 1), <END> is never chosen before the text reaches the minimum length. |
| Generation.GenerateSample | inference_and_training.go:307-329 | The text is the reference loop's. It is at most blockSize runes long, all from the vocabulary. |
| Generation.GenerateSampleWithTrace | inference_and_training.go:332-399 | The text, trace and stop reason are the reference loop's, so the text is GenerateSample's for the same draws. There are at most blockSize rows, exactly blockSize on "Reached block size limit". The reason is "Model selected <END> token" exactly when the last row shows <END>. |

## Left out

- **Floating point.** All arithmetic is over mathematical reals: no rounding, overflow, NaN or infinities.
- **Transcendentals.** `math.Exp`, `math.Log`, `math.Pow` and `math.Sqrt` are fields of `Transcendental.Math`. The proofs assume only the laws in `Lawful`: exp is positive, sqrt is non-negative, pow(x,-1) and pow(x,-1/2) invert x and sqrt x, 0 < b^e < 1 for 0 < b < 1 and e >= 1, and log is non-positive on (0, 1].
- **Randomness.** `rand.NormFloat64`, `rand.Intn` and `rand.Float64` are the parameters `gauss`, `draw` and `u`.
- **Gradients during training.** The forward pass is computed on values, not on a node graph. The gradient that `Backward` leaves on each parameter for one example comes in as the `Training.Partial` parameter. `Backward` itself is modelled and proved on an explicit graph in `Backprop`.
- **HTTP side.** The mutex, the HTTP server, the command-line entry point and the JSON request and response types are not part of this model (`server.go`, `main.go`, `api_types.go`).
- **Trace explanation.** The `Reason` text of each trace row (inference_and_training.go:357-370) is not modelled. `Generation.TraceStep` has no such field.
- **Strings.** The vocabulary is a sequence of runes (`seq<char>`) rather than a slice of one-rune strings, and `strings.Join` is concatenation.
- **Sort order.** `sort.Slice` is not stable, so Go may order equally probable tokens either way. `Ranking` puts the lower index first, which is one of the orders Go may produce. `Sampling.Mask` and `Sampling.TopKCandidates` inherit that choice.
- **Negative layer count.** With a negative `NLayer`, Go's `make` panics in the callers of `Forward`. The model runs zero layers (`Params.LayerCount`), as `NewModel`'s loop does.
- **Panics become requires.** Conditions under which Go panics become requires clauses:
  - `nHead == 0`, an integer division by zero at forward.go:23. This is required only when the block size is positive. With no position to run, training fails and generation returns the empty text before `Forward` is called.
  - a token or position outside its embedding table
  - a negative embedding width
  - a negative block size (`Params.NewModel` requires `blockSize >= 0`). Go's `make` panics inside `createMatrix` at model.go:80 when `wpe` is created at model.go:95. The server passes the configuration through unchecked (server.go:79).
  - an empty document list (`Training.Draws` cannot hold). Go panics in `rand.Intn(0)` at inference_and_training.go:100. The only caller rejects empty documents first (server.go:94-97).
- Layers.MeanSquare: for an empty vector, Go computes NaN (0 times +Inf), while the model gives 0. RMSNorm's output is empty either way.
- Autograd.Log: requires a non-zero input. Go would produce -Inf and an infinite derivative.
- Sampling.ToProbVector: requires a non-zero temperature. Every caller passes one already clamped to be positive by `samplingConfig`.
- Sampling.Fallback: if the control token lay outside the vector, Go would panic at inference_and_training.go:293. The model then leaves every entry at 1/(n-1). Every caller passes the last index.
- Adam.Update: 1 - 0.85 and 1 - 0.99 are exact (0.15 and 0.01), not the float64 roundings.
