# MyReal, modelled in Dafny

MyReal is a Next.js web application. A visitor draws a character and it is
turned into a picture by an image model (OpenRouter, then Gemini, then a
local stylizer). The result is stored under a signed, expiring token. The
picture is then shown in augmented reality: in a WebXR session, or over the
camera feed when WebXR is missing. It can also be exported for iOS Quick
Look. Around this sit:

- the request gates: same-origin checks, a per-address rate limit and HTTP
  Basic for the admin pages;
- the token records and the cleanup job that expires them;
- the feedback and metrics stores;
- the configuration;
- the QR scan page;
- the drawing canvas;
- the service worker's cache policy.

This project models that core in Dafny and proves what each piece promises.

- **Pure code** becomes datatypes and functions with lemmas about them:
  parsing, arithmetic, prompt building, routing decisions.
- **Code that updates state in place** becomes classes whose methods are
  specified against those functions. This covers module-level caches, React
  refs and state, pixel buffers, the undo history, the scan page and the
  service worker's `CacheStorage`.
- **Pixel loops** stay loops over arrays, with the invariants that tie them
  to a per-pixel specification.
- **Outside the model:** I/O, clocks, randomness, the network, crypto and
  foreign libraries. They appear as parameters (an outcome value, a function
  argument or a number in [0, 1)).

## Model

| member | source | states |
|---|---|---|
| ArMath.Clamp | app/components/ARClient.tsx:1255-1257 | the result is in [lo, hi] when lo <= hi; it is the value when the value is inside the range, and otherwise the nearer bound (hi whenever hi < lo, as `Math.min(max, Math.max(min, v))` gives) |
| ArMath.WrapDegrees | app/components/ARClient.tsx:620-623 | the shorter-way difference: it lands in [-180, 180] for inputs in (-540, 540], it differs from the input by 0 or ±360, and inputs already in range are unchanged |
| ArMath.CoverCrop | app/components/ARClient.tsx:1146-1172 | the frame is stretched over the canvas exactly when its width or height is 0 |
| ArMath.CoverCropFits | app/components/ARClient.tsx:1158-1171 | the crop of a non-empty frame lies inside the frame, is centred, has the canvas's aspect ratio and keeps one whole side of the frame |
| ArMath.TargetX | app/components/ARClient.tsx:797-813 | without the gyroscope the tapped anchor is used; with it the anchor is 0.5 − (wrapped turn)/60, in [−2.5, 3.5], and 0.5 when facing the re-centred heading |
| ArMath.DepthScale | app/components/ARClient.tsx:820 | the depth scale is always in [0.8, 1.35] and equals 0.8 + 0.6·anchorY/height when that is in range |
| ArMath.SpriteAnchored | app/components/ARClient.tsx:822-846 | the sprite's bottom edge stands on the anchor, it is centred on the anchor horizontally, keeps the picture's aspect ratio, and its pivot is the visual centre |
| ArMath.PlaceAnchored | app/components/ARClient.tsx:815-846 | the anchor is the target plus the user's offset in canvas pixels, the sprite's bottom edge stands on it and the sprite is centred on it horizontally |
| ArMath.PlaceIsSprite | app/components/ARClient.tsx:815-846 | the placement drawn each frame is the sprite of SpriteAnchored at the offset anchor and the fit, user and depth scale, so it also keeps the picture's aspect ratio and pivots about the visual centre |
| ArMath.TiltEffectsBounded | app/components/ARClient.tsx:832-839 | tilt, skew, rotation and parallax are each bounded by their constant factor and are proportional to the tilt within ±45° |
| ArMath.LayerDepth | app/components/ARClient.tsx:862-863 | layer i's parallax depth is (i + 1)·0.6, at least 0.6 |
| ArFallbackViewer.AngleOrZero | app/components/ARClient.tsx:607-609 | a missing angle reads as 0 and a reported one is kept |
| ArFallbackViewer.SmoothHeading | app/components/ARClient.tsx:620-630 | for a heading in [0, 360) and a sample in [0, 360], the smoothed heading stays in [0, 360) |
| ArFallbackViewer.SmoothHeadingConverges | app/components/ARClient.tsx:620-630 | after one sample the remaining shorter-way turn towards it is 85% of what it was, so the heading moves 15% of a turn of at most 180° (at most 27°) |
| ArFallbackViewer.LowPass | app/components/ARClient.tsx:632-633 | beta and gamma move 15% of the way to the sample, and stay between the old value and the sample |
| ArFallbackViewer.Oriented | app/components/ARClient.tsx:606-634 | the gyroscope is active afterwards exactly when it was or some angle is non-zero; the straight-ahead heading is the raw alpha of the activating event and is otherwise kept; the heading stays in [0, 360) with 85% of the turn left; beta and gamma keep 85% of their distance to the sample |
| ArFallbackViewer.PermittedOriented | app/components/ARClient.tsx:662-678 | after the permission is granted any event leaves the gyroscope active, the first one whatever its angles sets the straight-ahead heading, and the angles are copied raw, with no smoothing and no wrapping |
| ArFallbackViewer.ActiveStaysPut | app/components/ARClient.tsx:614-671 | under either listener an active gyroscope stays active and keeps its straight-ahead heading |
| ArFallbackViewer.ReplayKeepsHeading | app/components/ARClient.tsx:606-634 | a run of orientation events with headings in [0, 360) keeps the smoothed heading in [0, 360) |
| ArFallbackViewer.TapAnchor | app/components/ARClient.tsx:955-962 | the anchor lies in [0.1, 0.9] × [0.3, 0.95]; inside that range it is the tap as a fraction of the box, and a tap left or right of it gives 0.1 or 0.9 |
| ArFallbackViewer.SampleFrame | app/components/ARClient.tsx:753-779 | nothing changes unless sampling is due, a frame context exists and the video is playable; then the frame canvas takes the video's size, and a frame exists afterwards exactly when one did or the video time moved or the size changed |
| ArFallbackViewer.SampleFrameIdempotent | app/components/ARClient.tsx:760-778 | sampling the same video a second time changes nothing |
| ArFallbackViewer.DeeperShiftsFurther | app/components/ARClient.tsx:848-863 | a deeper layer is shifted at least as far as a shallower one, in the direction of the tilt |
| ArFallbackViewer.Compose | app/components/ARClient.tsx:781-884 | without a frame the canvas is black; with one the picture is composed with one shift per layer, is captured exactly when a capture was requested, and the camera layer is cleared exactly when the viewer is transparent and a capture was requested |
| ArFallbackViewer.ComposeAnchors | app/components/ARClient.tsx:797-825 | with the gyroscope active and facing the re-centred heading the sprite stands at the middle plus the offset; without the gyroscope at the tapped anchor plus the offset; its vertical anchor is the tapped one plus the offset and its bottom edge stands on it |
| ArFallbackViewer.FallbackViewer.HandleOrientation | app/components/ARClient.tsx:606-634 | the gyroscope ref becomes Oriented of the old state and the sample, a heading in range keeps the viewer valid, and nothing else changes |
| ArFallbackViewer.SmoothGyro | app/components/ARClient.tsx:611-634 | the step-by-step update (activation on the first non-zero sample, the heading moved along the shorter arc and wrapped, the tilts low-passed) yields exactly Oriented of the old state and the sample |
| ArFallbackViewer.FallbackViewer.HandlePermittedOrientation | app/components/ARClient.tsx:662-678 | the gyroscope ref becomes PermittedOriented of the old state and the sample, and nothing else changes |
| ArFallbackViewer.FallbackViewer.HandlePlace | app/components/ARClient.tsx:947-963 | an active gyroscope re-centres (the offset becomes the current heading, so TargetX is 0.5) and the anchor stays; otherwise the anchor becomes TapAnchor and the gyroscope is untouched |
| ArFallbackViewer.FallbackViewer.Capture | app/components/ARClient.tsx:941-945 | a pending request stays, and a new one is raised exactly when the canvas exists |
| ArFallbackViewer.FallbackViewer.Render | app/components/ARClient.tsx:736-884 | a stopped loop or an unmeasured canvas renders nothing; otherwise the frame store becomes SampleFrame (sampling on every call without frame callbacks, on fresh frames with them) and the result is Compose of the new store; a composed frame clears the capture request |
| ArFallbackViewer.FallbackViewer.Stop | app/components/ARClient.tsx:925-927 | teardown stops the loop and forgets the frame |
| ArLayerMasks.LayerMasks | app/components/ARClient.tsx:1028-1058 | with no 2D context there are no layers; a picture with a zero side cannot be read (`getImageData` throws), and that is the only failure; otherwise there are three layers of the picture's size, each row of layer i is Fate(height, i, row), and a layer without its own context is entirely clear |
| ArLayerMasks.Fate | app/components/ARClient.tsx:1050-1054 | a row is kept exactly when it lies wholly in [yStart, yEnd) and cleared exactly when it lies wholly outside; a row across a fractional edge is an edge row |
| ArLayerMasks.KeptByOneLayer | app/components/ARClient.tsx:1047-1055 | no row is kept whole by two layers |
| ArLayerMasks.EveryRowShown | app/components/ARClient.tsx:1047-1055 | no row is cleared from all three layers |
| ArLayerMasks.ThirdsPartition | app/components/ARClient.tsx:1050-1054 | when the height is a multiple of 3 there are no edge rows, and each row is kept by exactly the layer of its third |
| ArNormalMap.NormalChannel | app/components/ARClient.tsx:1097-1100 | a channel is a byte; a vanishing gradient gives 127 (floor of 127.5), a gradient of 1 or more gives 0 and one of −1 or less 255 |
| ArNormalMap.AverageLuminance | app/components/ARClient.tsx:1116 | an average exists exactly when there are pixels |
| ArNormalMap.CreateNormalMap | app/components/ARClient.tsx:1060-1118 | with no 2D context the map is empty and the luminance 0.5; an empty picture gives no luminance; otherwise the map has the picture's length, each byte is NormalByte (the flat fill, overwritten at interior pixels by the Sobel channels) and the luminance is AverageLuminance |
| ArNormalMap.NormalMapBytes | app/components/ARClient.tsx:1074-1104 | every byte is in 0..255; border pixels keep 128, interior pixels with no gradient get 127, one below the border |
| ArNormalMap.EvenRegionIsFlat | app/components/ARClient.tsx:1090-1095 | when a pixel and its eight neighbours share one red value both gradients are 0 |
| ArNormalMap.AverageLuminanceBounds | app/components/ARClient.tsx:1074-1116 | the average luminance lies in [0, 1] |
| ArNormalMap.Exposure | app/components/ARClient.tsx:396 | the exposure lies in [0.8, 1.4] and is 1.7 − luminance for luminances in [0.3, 0.9] |
| ArVisualCenter.CalculateVisualCenter | app/components/ARClient.tsx:290-325 | without a context the centre is (0.5, 0.5); with a context a picture with a zero side throws (`getImageData` refuses an empty rectangle); otherwise the result is the centre of the sampling grid's tally |
| ArVisualCenter.GridCentre | app/components/ARClient.tsx:300-324 | the two loops over every fourth row and column leave the tally of the samples with alpha > 20, and the result is its mean column over the width and mean row over the height, or (0.5, 0.5) when no sample counted |
| ArVisualCenter.CentreInUnitSquare | app/components/ARClient.tsx:318-324 | the visual centre always lies in [0, 1) × [0, 1) |
| ArVisualCenter.MiddleIffNoOpaqueSample | app/components/ARClient.tsx:303-318 | the grid counts no sample exactly when no sampled alpha exceeds 20, and then the centre is (0.5, 0.5) |
| ArVisualCenter.RowClearTally | app/components/ARClient.tsx:304-315 | a row adds nothing exactly when none of its samples is solid |
| ArVisualCenter.GridClearTally | app/components/ARClient.tsx:303-316 | the grid adds nothing exactly when every sampled row is clear |
| ArVisualCenter.MeanFraction | app/components/ARClient.tsx:321-324 | a mean of coordinates below the side, divided by the side, lies in [0, 1) |
| ArXrGroup.UpdatedPose | app/components/ARClient.tsx:1174-1239 | the scale follows the controls and a snapshot exists afterwards; the first frame only takes the orientation as the snapshot; later frames set the orientation to the snapshot times the user's turn, keep the position without an anchor, and with an anchor put the group at anchor + offsetX·right + offsetY·up, the axes taken from the new orientation (so zero offsets leave it on the anchor) |
| ArXrGroup.RightColumn | app/components/ARClient.tsx:1234 | the right axis is the unit x axis rotated by q: the first column of q's rotation matrix |
| ArXrGroup.UpColumn | app/components/ARClient.tsx:1235 | the up axis is the unit y axis rotated by q: the second column of q's rotation matrix |
| ArXrGroup.AxesOfTurns | app/components/ARClient.tsx:1234-1235 | unturned, right and up are (1, 0, 0) and (0, 1, 0); a half turn about the vertical axis makes right (−1, 0, 0) and keeps up |
| ArXrGroup.UpdateIdempotent | app/components/ARClient.tsx:1221-1239 | once the snapshot exists, a second update with the same controls changes nothing |
| ArXrGroup.RunKeepsOnlyLastFrame | app/components/ARClient.tsx:1221-1239 | after any run of frames the pose depends only on the last frame's controls, the snapshot and the anchor |
| ArXrGroup.Placed | app/components/ARClient.tsx:451-465 | `place()` puts the group at camera + 1.2·dir, gives it the camera-facing orientation, records that position as the anchor, and keeps the snapshot and the scale |
| ArXrGroup.PlaceBeforeFirstFrame | app/components/ARClient.tsx:481-489 | placing before the first frame keeps the new facing: it becomes the snapshot |
| ArXrGroup.PlaceLaterLosesFacing | app/components/ARClient.tsx:451-465 | placing later moves the anchor, but the next frame's orientation comes from the old snapshot whatever the new facing was |
| ArXrGroup.Layers | app/components/ARClient.tsx:989-1026 | there are count + 1 meshes: the outline first at z = −0.01 with no parallax index, then the layers with parallax index 1, 2, … and baseZ equal to their z |
| ArXrGroup.Parallaxed | app/components/ARClient.tsx:1241-1253 | a child without a parallax index is unchanged; a child with one keeps its index and baseZ and gets z = baseZ |
| ArXrGroup.ParallaxBounded | app/components/ARClient.tsx:1242-1249 | a layer with index d moves at most 0.015·d along each axis |
| ArXrGroup.ParallaxDropsCentreShift | app/components/ARClient.tsx:1248-1249 | after a parallax update every layer is where it would be with the visual centre in the middle (the shift added at lines 440-441 is gone), and a flat device puts every layer at x = y = 0 |
| ArXrGroup.Group.constructor | app/components/ARClient.tsx:398-447 | the group holds the meshes of Layers, stands at (0, 0, −1.5) with that anchor and the identity orientation, and has no snapshot |
| ArXrGroup.Group.UpdateGroup | app/components/ARClient.tsx:1174-1239 | the pose becomes UpdatedPose of the old pose |
| ArXrGroup.Group.Place | app/components/ARClient.tsx:451-465 | the pose becomes Placed of the old pose |
| ArXrGroup.Group.ApplyParallax | app/components/ARClient.tsx:1241-1253 | each child becomes Parallaxed of itself and the pose is unchanged |
| Image.ValidateImage | lib/image.ts:6-20 | the upload is accepted exactly when it is at most 18 MiB, sniffed as PNG or JPEG and has a positive width and height, and then carries that type and size; the size error comes exactly for more than 18 MiB, and the type error exactly for an acceptable size with another or no type |
| Image.SizeCheckedFirst | lib/image.ts:7-9 | an oversized buffer gives the same answer whatever it contains, and exactly 18 MiB is not too large |
| Image.ResizeToLimit | lib/image.ts:22-31 | a short side of at most 1536 keeps the size; otherwise each side is its scaled length rounded to the nearest integer |
| Image.ResizedShortSide | lib/image.ts:23-29 | the short side becomes min(short side, 1536) and the orientation is kept |
| Image.ResizedPortrait | lib/image.ts:27-29 | a portrait picture over the limit gets width exactly 1536 and a height of at least 1536 |
| Image.ResizedLandscape | lib/image.ts:27-29 | a landscape picture over the limit gets height exactly 1536 and a width of at least 1536 |
| Image.ResizeIdempotent | lib/image.ts:22-31 | resizing a resized picture leaves it as it is |
| Image.RemoveNearWhiteBackground | lib/image.ts:33-43 | the pixel loop leaves the buffer equal to NearWhiteKeyed of its old contents |
| Image.KeyedPixel | lib/image.ts:36-43 | a pixel with red, green and blue all above 230 gets alpha 0; any other pixel keeps its alpha; colour bytes never change |
| Image.KeyingIdempotent | lib/image.ts:36-43 | keying an already keyed buffer changes nothing |
| Stylize.RemoveFirstHash | lib/stylize.ts:43 | text with no `#` is unchanged, and a leading `#` is dropped |
| Stylize.HexRun | lib/stylize.ts:44 | the run of hexadecimal digits `parseInt` reads is the longest prefix of digits |
| Stylize.ParseHexDigits | lib/stylize.ts:44 | `parseInt(text, 16)` on plain hexadecimal digits (no `0x` prefix) is their value |
| Stylize.HexToRgb | lib/stylize.ts:42-50 | every result channel is a byte, whatever the text, including text `parseInt` cannot read (NaN gives 0) |
| Stylize.HexColourChannels | lib/stylize.ts:42-50 | for `#rrggbb` the channels are the values of the three digit pairs |
| Stylize.HexToRgbOfParsed | lib/stylize.ts:45-49 | the channels are bits 16-23, 8-15 and 0-7 of the parsed number |
| Stylize.ThreeBytes | lib/stylize.ts:46-48 | shifting and masking r·65536 + g·256 + b gives back r, g and b |
| Stylize.Repaint | lib/stylize.ts:15-28 | a visible pixel is repainted with the shadow colour or one of the three palette colours |
| Stylize.Stylized | lib/stylize.ts:9-29 | the stylized buffer has the length of the original |
| Stylize.PaletteColours | lib/stylize.ts:4-5 | the first three palette entries give three colours |
| Stylize.StylizeFallback | lib/stylize.ts:3-29 | a palette of fewer than three entries fails (`hexToRgb(undefined)` throws) and leaves the pixels alone; otherwise the loop leaves the buffer equal to Stylized of the old buffer and the palette's colours |
| Stylize.PaintPixels | lib/stylize.ts:9-29 | the pixel loop leaves the buffer equal to Stylized of its old contents |
| Stylize.StylizedPixel | lib/stylize.ts:10-28 | alpha is never changed; a transparent pixel is left alone; a visible pixel with luminance below 60 becomes (24, 24, 28); a brighter one becomes palette colour 0, 1 or 2 for luminance below 120, below 190, or above |
| Stylize.FourColours | lib/stylize.ts:17-28 | every visible pixel ends in one of four colours: the shadow or a palette colour |
| QuickLook.CornerSize | app/components/QuickLookButton.tsx:55 | the corner square is at least 6 pixels wide, and fits in the picture when both sides are at least 6 |
| QuickLook.Corners | app/components/QuickLookButton.tsx:56-61 | there are four corner squares and each lies inside the picture |
| QuickLook.SampleCountPositive | app/components/QuickLookButton.tsx:62-76 | the corners hold 4·size² samples, more than zero, so the division at lines 77-81 is defined |
| QuickLook.SampleCornerColor | app/components/QuickLookButton.tsx:54-82 | the loops return CornerMean: the mean red, green and blue over the four corner squares |
| QuickLook.AddCorner | app/components/QuickLookButton.tsx:67-75 | one corner's loops add that square's red, green and blue sums to the totals and size² to the count |
| QuickLook.CornerMeanBounds | app/components/QuickLookButton.tsx:77-81 | each component of the estimated background lies in [0, 255] |
| QuickLook.Uncomposite | app/components/QuickLookButton.tsx:107-116 | the un-composited channel is a byte (rounded, then clamped to [0, 255]) |
| QuickLook.UncompositeInverts | app/components/QuickLookButton.tsx:107-116 | un-compositing a byte that was blended over the background at that alpha gives the byte back |
| QuickLook.KeyPixelEffect | app/components/QuickLookButton.tsx:96-117 | a pixel within distance 28 of the background becomes transparent with its colour kept; a semi-transparent pixel otherwise gets its colour un-composited; a solid or fully transparent pixel otherwise is unchanged |
| QuickLook.Processed | app/components/QuickLookButton.tsx:95-118 | the processed buffer has the length of the original |
| QuickLook.ProcessedPixel | app/components/QuickLookButton.tsx:95-118 | each pixel of the processed buffer is KeyPixel of the original pixel |
| QuickLook.BuildProcessedCanvas | app/components/QuickLookButton.tsx:84-121 | without a 2D context it fails and leaves the pixels; otherwise the buffer becomes Processed of the old buffer against its corner mean |
| QuickLook.KeyBackground | app/components/QuickLookButton.tsx:95-118 | the pixel loop leaves the buffer equal to Processed of its old contents |
| QuickLook.KeyAt | app/components/QuickLookButton.tsx:96-117 | one pass of the loop rewrites exactly the four bytes of the pixel at i, to KeyPixel of that pixel, and leaves every other byte as it was |
| QuickLook.AlphaTexture | app/components/QuickLookButton.tsx:132-138 | the alpha texture has the length of the source |
| QuickLook.AlphaTexturePixel | app/components/QuickLookButton.tsx:132-138 | each pixel of the alpha texture is (a, a, a, 255) for the source alpha a |
| QuickLook.BuildAlphaTexture | app/components/QuickLookButton.tsx:123-143 | without a 2D context it fails with an empty buffer; otherwise a new buffer holds AlphaTexture of the source |
| QuickLook.BackgroundIsMasked | app/components/QuickLookButton.tsx:102-138 | a background pixel ends up black (0, 0, 0, 255) in the alpha texture |
| QuickLook.WaitForUrl | app/components/QuickLookButton.tsx:19-31 | at most 8 probes are made; the answer is true exactly after a probe that found the URL available (ok, 403 or 405), every earlier probe failed, and false comes only after all 8 failed |
| ArFallbackViewer.CameraFor | app/components/ARClient.tsx:782-786 | the camera layer is cleared exactly when the background is transparent and a capture is being taken; otherwise the frame is drawn to cover the canvas |
| ArFallbackViewer.LayerShifts | app/components/ARClient.tsx:862-863 | there is one shift per layer, layer k shifted with depth (k + 1) · 0.6 |
| ArFallbackViewer.FallbackViewer.constructor | app/components/ARClient.tsx:589-598 | the viewer starts with the gyroscope inactive, the anchor at (0.5, 0.68), no capture requested, the loop running and no frame |
| ArLayerMasks.ThirdOf | app/components/ARClient.tsx:1050-1051 | every row belongs to one of the three layers |
| ArLayerMasks.Bands | app/components/ARClient.tsx:1050-1051 | for a height of 3k, band i runs from row k · i to row k · (i + 1) |
| ArLayerMasks.BandOnRows | app/components/ARClient.tsx:1053-1054 | a band whose edges fall on row boundaries keeps each row inside it whole and clears each row outside it whole |
| ArNormalMap.FillFlat | app/components/ARClient.tsx:1071-1081 | every byte of the map becomes the flat normal (128, 128, 255) with the picture's alpha, and the running total is the sum of all pixel luminances |
| ArNormalMap.ShadeInteriorPixel | app/components/ARClient.tsx:1089-1103 | writing one interior pixel extends the correctly filled part of the map past that pixel |
| ArNormalMap.LuminanceTotalBounds | app/components/ARClient.tsx:1072-1076 | the luminances of the first i/4 pixels add up to between 0 and one per pixel |
| Image.ScaledSides | lib/image.ts:22-31 | scaling by 1536 / short side turns the short side into exactly 1536 and leaves the long side at least 1536 |
| Stylize.HexDigitValue | lib/stylize.ts:44 | a hexadecimal digit is worth less than 16 |
| Stylize.PairValue | lib/stylize.ts:44-48 | two hexadecimal digits spell a byte |
| Stylize.SixDigitColour | lib/stylize.ts:43-44 | six hexadecimal digits parse to the number made of the three bytes their pairs spell |
| Stylize.Bucket | lib/stylize.ts:24 | a luminance of at least 60 maps to one of the three palette colours |
| Token.SecretCache.constructor | lib/token.ts:6 | no secret is cached at first |
| Token.SecretCache.GetSecret | lib/token.ts:6-17 | a cached secret is returned unchanged; otherwise the configured secret, or else the random 64-hex-digit one, becomes the cached secret; the result is never empty |
| Token.CreateToken | lib/token.ts:23-29 | for any real lifetime in hours (the configuration admits fractions such as 1.5), the expiry lies ttlHours·3 600 000 ms after now, and the token is `id.` plus the expiry's text, followed by `.` and the signature of that payload |
| Token.ExpText | lib/token.ts:26 | the text of the expiry holds a decimal point exactly when the expiry is not a whole number of milliseconds |
| Token.VerifyToken | lib/token.ts:31-47 | a token that does not split into three parts is invalid; one whose signature differs from the signature of `id.expStr` is invalid; with a matching signature an unreadable expiry is invalid, a past one is expired (carrying exp), and any other is valid (carrying exp) |
| Token.SplitToken | lib/token.ts:32 | a token built from dot-free parts splits back into exactly those three parts |
| Token.CreatedTokenVerifies | lib/token.ts:23-47 | a token created with a lifetime that is a whole number of milliseconds verifies: valid up to and including its expiry time, expired after it |
| Token.FractionalExpiryRefused | lib/token.ts:23-33 | a lifetime that is not a whole number of milliseconds (`TOKEN_TTL_HOURS=1.0000001`) writes an expiry with a decimal point, so the token has four dot-separated fields and is invalid at any time |
| Token.VerifySigned | lib/token.ts:34-46 | a well-signed token with a numeric expiry is valid until it and expired after it |
| Token.LifetimeDecides | lib/token.ts:23-46 | checked at the moment of creation, a positive whole-millisecond lifetime gives a valid token and a negative one an expired token |
| Token.ForgedSignatureInvalid | lib/token.ts:36-42 | a token whose signature is not the signature of its payload is invalid at any time |
| Proxy.ExpiryOf | proxy.ts:31-32 | a readable expiry is never zero, since `exp &&` treats zero as absent |
| Proxy.TokenExpiry | proxy.ts:31-32 | the expiry read from a token is never zero |
| Proxy.Proxy | proxy.ts:3-41 | with admin credentials configured, an admin path with no `Basic ` header gets 401; with a `Basic ` header it crashes exactly when the header is not base64, passes exactly when the decoded text's first two colon-fields are the configured user and password, and gets 401 otherwise; on any other path, or with no credentials configured, the request is rewritten to `/ar/expired` exactly when it is an `/ar/` path whose token has expired, and passes otherwise; the only rewrite target is `/ar/expired` |
| Proxy.AdminGate | proxy.ts:9-25 | with credentials configured a missing or non-`Basic` header is answered with 401; for a `Basic ` header the gate fails exactly when the rest is not base64 and passes exactly when the decoded text's first two colon-fields are the configured user and password |
| Proxy.AdminNotAr | proxy.ts:6-28 | an admin path never starts with `/ar/`, so the two branches of `proxy` never meet |
| Proxy.WrongCredentialsRefused | proxy.ts:17-24 | on an admin path, a decodable `Basic` header whose user or password differs from the configured ones gets 401 |
| Proxy.SignatureIgnored | proxy.ts:28-40 | on `/ar/<id>.<exp>.<sig>` the signature is never checked: the request is rewritten exactly when the expiry reads as a number that is in the past, whatever the signature and the authorization header |
| Proxy.ExpiryField | proxy.ts:31 | the expiry is read from the second dot-separated field of the token |
| Proxy.ExpiryFromFields | proxy.ts:31 | the expiry read from a token is the second of its dot-separated fields, read as a number |
| Proxy.NotAdmin | proxy.ts:6-28 | an `/ar/` path is never an admin path |
| Proxy.ArTokenSegment | proxy.ts:29 | the token read from `/ar/<token>` is `<token>` itself |
| Proxy.FalsyExpiryPasses | proxy.ts:30-37 | a token whose expiry field does not read as a non-zero number is never treated as expired |
| Admin.Credentials | lib/admin.ts:13 | the user and password read from the decoded header never contain `:`; there is no password exactly when the decoded text has no `:` |
| Admin.CheckBasicAuth | lib/admin.ts:8-15 | without configured credentials every request passes; with them, a missing or non-`Basic` header fails, and otherwise the request passes exactly when the decoded text's first `:`-field is the user and its second is the password |
| Admin.ColonPasswordLocksOut | lib/admin.ts:13-14 | a configured password that contains `:` can never be matched, so no header is ever accepted |
| Admin.MatchingHeaderAccepted | lib/admin.ts:11-14 | a `Basic` header that decodes to `user:pass` for the configured credentials (neither containing `:`) is accepted |
| Security.GetRequestIp | lib/security.ts:2-8 | the address is never empty; with a non-empty `x-forwarded-for` it is the trimmed first hop, or `0.0.0.0` when that is blank; otherwise `x-real-ip` when non-empty, else `0.0.0.0` |
| Security.FirstHopWins | lib/security.ts:4-6 | with a forwarded list whose first hop is non-blank, that hop decides the address and `x-real-ip` is ignored |
| Security.AssertSameOrigin | lib/security.ts:10-22 | a request missing either the `origin` or the `host` header passes; with both, it passes exactly when the origin parses as a URL whose host equals the `host` header |
| RateLimit.Limit | lib/rateLimit.ts:14 | the effective limit is at least one request per window (absent when the setting is not a number) |
| RateLimit.RetryAfterBounds | lib/rateLimit.ts:23 | for an elapsed time within the 60 000 ms window, the wait reported is between 0 and 60 seconds |
| RateLimit.RateLimiter.constructor | lib/rateLimit.ts:5 | the limiter starts with no records |
| RateLimit.CheckEffect | lib/rateLimit.ts:11-29 | only the caller's record changes and it is present afterwards; a refusal leaves the records as they were and, unless the clock went back, reports a wait of at most 60 seconds; an allowed request reports no wait and its record count is 1 (new window) or one more than before |
| RateLimit.RefusedUntilWindowEnds | lib/rateLimit.ts:16-24 | a client at its limit is refused, and refused again by any later request inside the same 60 000 ms window |
| RateLimit.CheckKeepsWithin | lib/rateLimit.ts:14-28 | if every record counts at least 1 and at most the limit rounded up, it still does after a decision |
| RateLimit.RateLimiter.CheckRateLimit | lib/rateLimit.ts:11-29 | the answer and the new records are `Check`'s decision on the old records: a fresh window with count 1 for an unknown client or one whose window started more than 60 000 ms ago, a refusal with the seconds left when the count has reached the limit, and otherwise one more in the count; if every record counts at least 1 and at most the limit rounded up, it still does afterwards |
| Metadata.UpstashKey | lib/metadata.ts:56-76 | the Upstash key is `myreal:` followed by the token |
| Metadata.UpstashTtl | lib/metadata.ts:55 | the expiry sent to Upstash is the token lifetime in seconds, and never less than 60 |
| Metadata.UpstashKeyInjective | lib/metadata.ts:56-76 | distinct tokens get distinct Upstash keys |
| Metadata.Without | lib/metadata.ts:80 | deleting a key keeps exactly the other keys, and keeps them duplicate-free |
| Metadata.ExpiredEntries | lib/metadata.ts:89-91 | every record listed has expired, and there are no more of them than stored records |
| Metadata.ExpiredEntriesExact | lib/metadata.ts:89-91 | a record is listed exactly when it is stored and its `expiresAt` is strictly before `now` |
| Metadata.MetaStore.constructor | lib/metadata.ts:16 | the local cache starts unloaded and empty |
| Metadata.MetaStore.LoadLocal | lib/metadata.ts:19-28 | an already loaded cache is kept; otherwise the file's records are loaded, or none when the file cannot be read or parsed |
| Metadata.MetaStore.SaveMeta | lib/metadata.ts:53-62 | with Upstash configured, a single `SET myreal:<token> … EX <ttl>` command is issued and the local cache is untouched; otherwise the record is stored under its token in the loaded cache |
| Metadata.MetaStore.GetMeta | lib/metadata.ts:64-72 | with Upstash configured, `GET myreal:<token>` is issued and its reply returned; otherwise the loaded cache's record for the token, or null |
| Metadata.MetaStore.DeleteMeta | lib/metadata.ts:74-82 | with Upstash configured, `DEL myreal:<token>` is issued; otherwise the token's record is removed from the loaded cache and every other record kept |
| Metadata.MetaStore.ListExpired | lib/metadata.ts:84-92 | with Upstash configured, nothing is listed; otherwise the expired records of the loaded cache, in key order |
| Metadata.SaveThenGet | lib/metadata.ts:53-72 | after saving a record, reading its token gives it back, and reading another token gives what it gave before |
| Metadata.DeleteThenGet | lib/metadata.ts:64-82 | after deleting a token, reading it gives null, and reading another token gives what it gave before |
| Cleanup.Select | scripts/cleanup.ts:9-14 | every record kept is past the image retention time or past its own expiry, and none is added |
| Cleanup.SelectKeepsExpired | scripts/cleanup.ts:8-14 | when every record offered has already expired (as `listExpired` guarantees), the filter keeps all of them, so the retention setting never changes what is deleted |
| Cleanup.RecordAfterImage | scripts/cleanup.ts:16-24 | in the log of a run, a record's removal is always directly preceded by the deletion of its image |
| Cleanup.RecordDeletedIff | scripts/cleanup.ts:16-24 | a token's record is removed exactly when it is among the records to delete and its image deletion did not fail |
| Cleanup.Run | scripts/cleanup.ts:6-27 | with Upstash configured nothing is deleted; otherwise the records deleted are exactly the expired records of the local store; the log is that of deleting each in turn; the count reported is their number; the local store becomes the loaded store without the tokens of exactly the records whose image was deleted, a record whose image deletion failed staying with its value; and every record whose image was deleted is gone from the store |
| Cleanup.DeleteEach | scripts/cleanup.ts:16-24 | the loop produces the log of deleting each record in order; with Upstash the local store is untouched; otherwise the store loses exactly the tokens in DeletedTokens (those whose image deletion succeeded) and every other record keeps its value |
| Cleanup.DeletedTokens | scripts/cleanup.ts:16-24 | a token is deleted exactly when some selected entry carrying it had its image deleted |
| Cleanup.DeletedTokensIff | scripts/cleanup.ts:16-24 | a token is among the deleted exactly when some selected entry with that token did not fail its image deletion |
| Cleanup.DeletedStep | scripts/cleanup.ts:16-24 | one more entry removes its own token from the store, unless its image deletion threw |
| Cleanup.DeleteEntry | scripts/cleanup.ts:17-23 | one record: the events are its image deletion then its record deletion, or the failure alone; with Upstash the local store is untouched; otherwise the records are exactly the old ones when the image deletion threw, and the old ones without this token when it did not |
| Metrics.Round2 | lib/metrics.ts:72 | rounding to two decimals moves the value by at most 0.005 |
| Metrics.Round2Within | lib/metrics.ts:72 | rounding to two decimals keeps a value within any integer bounds that held before |
| Metrics.NextAverageBounds | lib/metrics.ts:68-74 | an average of scores between 1 and 5, updated with a score between 1 and 5, stays between 1 and 5 |
| Metrics.TotalBetween | lib/metrics.ts:70-71 | the running total after n scores between 1 and 5 lies between n and 5n |
| Metrics.MeanBetween | lib/metrics.ts:72 | a total between n and 5n, divided by n, lies between 1 and 5 |
| Metrics.Merge | lib/metrics.ts:34 | spreading the file over the counters takes each field from the file when present there and keeps the current value otherwise |
| Metrics.MergeExtremes | lib/metrics.ts:34 | an empty file changes nothing, and a file holding every field replaces all counters |
| Metrics.LoadOnce | lib/metrics.ts:29-38 | once loaded, a second load leaves the counters unchanged whatever the file now holds |
| Metrics.MetricsStore.constructor | lib/metrics.ts:17-26 | the store starts unloaded with every counter at zero |
| Metrics.MetricsStore.EnsureLoaded | lib/metrics.ts:29-38 | after the call the store is loaded; the first call merges the file in, later calls change nothing |
| Metrics.MetricsStore.GetMetrics | lib/metrics.ts:48-51 | the counters returned are the loaded ones |
| Metrics.MetricsStore.RecordGeneration | lib/metrics.ts:53-60 | after loading, the generation count goes up by one, the duration is added to the total, the average is the rounded total over the count, and the time of the last generation is now |
| Metrics.MetricsStore.RecordFailure | lib/metrics.ts:62-66 | after loading, the failure count goes up by one and nothing else changes |
| Metrics.MetricsStore.RecordFeedback | lib/metrics.ts:68-74 | after loading, the feedback count goes up by one and the average becomes the new mean rounded to two decimals; a feedback average between 1 and 5 stays so for a score between 1 and 5 |
| Feedback.FeedbackStore.constructor | lib/feedback.ts:13 | the cache starts empty (null) |
| Feedback.FeedbackStore.LoadLocal | lib/feedback.ts:16-25 | a loaded cache is returned as it is; otherwise the file's list, or an empty list when it cannot be read, becomes the cache and is returned |
| Feedback.FeedbackStore.AddFeedback | lib/feedback.ts:35-39 | the entry is appended to the end of the loaded list and nothing else in it changes |
| Feedback.FeedbackStore.ListFeedback | lib/feedback.ts:41-43 | the loaded list is returned |
| Feedback.AddTwiceThenList | lib/feedback.ts:35-43 | two entries added one after the other are listed after the earlier entries, in the order they were added, whatever the file holds by then |
| FeedbackRoute.ParseFeedback | app/api/feedback/route.ts:7-16 | an accepted body is an object whose `score` is a number from 1 to 5, whose `comment`, when present, is a string of at most 500 characters, and whose `token`, when present, is a string; the parsed fields are exactly those of the body |
| FeedbackRoute.ParseEncodeRoundTrip | app/api/feedback/route.ts:7-16 | encoding an input as a body and parsing it back gives the input exactly when it meets the schema, and a refusal otherwise |
| FeedbackRoute.ExtraKeysIgnored | app/api/feedback/route.ts:7-11 | keys other than `score`, `comment` and `token` make no difference to parsing |
| FeedbackRoute.NullFieldRefused | app/api/feedback/route.ts:9-16 | a `null` comment or token is refused, and so is a body that is an array or `null` |
| FeedbackRoute.ToEntry | app/api/feedback/route.ts:17-22 | the entry keeps the score and records the current time; the comment is `Trim` of the one given (empty when absent): the given text with white space, and only white space, cut from both ends; the token, when given, is cut to its first 12 characters |
| FeedbackRoute.StoredEntryBounded | app/api/feedback/route.ts:7-22 | a stored entry has a score from 1 to 5, a comment of at most 500 characters and a token of at most 12 |
| FeedbackRoute.Post | app/api/feedback/route.ts:13-31 | a cross-origin request gets 403 and a body that fails the schema gets 400, neither changing the feedback list or the metrics; an accepted body appends its entry to the feedback list, updates the feedback count and average, and gets `{ ok: true }`; the average stays between 1 and 5 |
| FeedbackCsv.Rows | app/api/admin/feedback.csv/route.ts:14-21 | there is one row per entry, in order, each the entry's fields joined by commas |
| FeedbackCsv.RowIsOneLine | app/api/admin/feedback.csv/route.ts:14-21 | a row never contains a line break when the score text, time and token have none, since the comment is JSON-quoted |
| FeedbackCsv.CsvLines | app/api/admin/feedback.csv/route.ts:13-22 | the file's lines are the header followed by one row per entry |
| FeedbackCsv.RowFields | app/api/admin/feedback.csv/route.ts:15-20 | when no field contains a comma, a row splits back into score, quoted comment, time and token, and the quoted comment reads back as the comment |
| FeedbackCsv.Get | app/api/admin/feedback.csv/route.ts:5-29 | a request that fails the admin check gets 401 and loads nothing; any other gets the CSV of the loaded feedback list |
| JsonText.Escape | app/api/admin/feedback.csv/route.ts:17 | the escaped body of a JSON string contains no control character |
| JsonText.JsonQuote | app/api/admin/feedback.csv/route.ts:17 | `JSON.stringify` of a string starts and ends with `"` and contains no control character, so no line break |
| JsonText.HexDigitValue | app/api/admin/feedback.csv/route.ts:17 | a hexadecimal digit written in a `\u` escape reads back as its value |
| JsonText.UnescapeEscape | app/api/admin/feedback.csv/route.ts:17 | reading an escaped string body back gives the original string |
| JsonText.QuoteRoundTrip | app/api/admin/feedback.csv/route.ts:17 | `JSON.parse` of `JSON.stringify(s)` is `s` for every string |
| JsonText.EscapeKeepsCommas | app/api/admin/feedback.csv/route.ts:17 | escaping neither adds nor removes commas, so a comment with a comma breaks the CSV row's fields and one without keeps them |
| JsNumber.NatToStringValue | lib/token.ts:25-26 | the decimal numeral of a natural number reads back as that number |
| JsNumber.IntToStringRoundTrip | lib/token.ts:25-43 | `Number(String(n))` is `n` for every integer, which is how an expiry written into a token is read back |
| JsNumber.NumeralValue | lib/config.ts:108-125 | `Number` of a string of decimal digits is the value of those digits |
| JsNumber.ParseUnsigned | lib/token.ts:43 | a number read without a sign is never negative |
| Storage.ChooseBackend | lib/storage.ts:62-80 | Supabase is used exactly when the provider is `supabase`, Supabase is enabled and a bucket is set; S3 exactly when Supabase is not chosen, the provider is `s3` and a bucket is set; the bucket used is the chosen backend's |
| Storage.LocalFallback | lib/storage.ts:62-97 | any other provider, an S3 provider with no bucket, and a Supabase provider that is disabled or has no bucket all fall back to the local disk |
| Storage.Extension | lib/storage.ts:50 | one leading dot is stripped from the extension; an empty result becomes `bin` |
| Storage.OneDotStripped | lib/storage.ts:50 | only the first of several leading dots is stripped |
| Storage.ImageFileName | lib/storage.ts:38-40 | an image key is `<prefix>/…` and ends in `.png` |
| Storage.SavedFileName | lib/storage.ts:50-53 | a file key is `<prefix>/…` and ends in `.` followed by the cleaned extension |
| Storage.FileNameParts | lib/storage.ts:38-53 | a key splits at `/` into the prefix and `<time>-<random>.<ext>`, and the latter splits at `.` into the stem and the extension |
| Storage.SaveFileWithKey | lib/storage.ts:57-98 | saving fails exactly when the chosen backend's write fails: a Supabase upload error gives `Supabase upload failed: ` and that error, an S3 `send` rejection or a file-system error propagates its own message; otherwise the filename is returned as the key |
| Storage.TrimTrailingSlash | lib/storage.ts:117 | one trailing `/` is removed and nothing else changes |
| Storage.GetImageUrl | lib/storage.ts:100-127 | the local backend gives `/api/file/<key>`; S3 with a public URL gives that URL without its trailing slash, then `/<key>`; S3 without one gives the presigned URL; Supabase succeeds exactly when it returns a non-empty signed URL and no error, and gives that URL |
| Storage.PublicUrlSlash | lib/storage.ts:116-117 | an S3 public URL with or without a trailing slash gives the same image URL |
| Storage.SavedFileAddressable | lib/storage.ts:57-148 | a saved key is the filename, and it is what the same backend's URL and deletion address |
| Retry.WithBackoff | lib/openrouter.ts:54-66 | the call is attempted at most three times and stops at the first attempt that does not throw; a success is the value of the last attempt, and a failure happens only after three attempts that all threw, with the last error |
| Retry.BackoffExtremes | lib/gemini.ts:14-26 | an operation that succeeds at once is called once; one that always throws is called three times and fails with its third error |
| OpenRouter.ExtractBase64FromDataUrl | lib/openrouter.ts:8-11 | a match is non-empty, has no line terminator, and is the tail of a URL that starts with `data:image/` |
| OpenRouter.DataUrlRoundTrip | lib/openrouter.ts:8-11 | the payload of `data:image/<subtype>;base64,<payload>` is read back exactly, for a non-empty subtype without `;` and a non-empty one-line payload |
| OpenRouter.IndexOfFirst | lib/openrouter.ts:9 | the first `;` of a data URL is the one right after its subtype |
| OpenRouter.MultiLinePayloadRefused | lib/openrouter.ts:9 | a payload containing a line break is not matched, since `.` does not match line terminators |
| OpenRouter.FirstContentImageNone | lib/openrouter.ts:28-38 | the content parts yield nothing exactly when no part is an `image_url` part with a data URL |
| OpenRouter.FirstContentImageFirst | lib/openrouter.ts:28-38 | a payload the content parts yield is that of the first `image_url` part with a data URL |
| OpenRouter.ExtractImageBase64 | lib/openrouter.ts:13-52 | the first image entry is used when it yields a data-URL payload; failing that, the first image part of the message content; failing that, the first `data` entry |
| OpenRouter.ExtractedFromSomeSource | lib/openrouter.ts:13-52 | a payload yields an image exactly when one of the three places does, and the image is one of theirs |
| OpenRouter.ContentAfterNonDataImage | lib/openrouter.ts:16-29 | a first image whose URL is not a data URL does not stop the search: the content parts are tried next |
| OpenRouter.TryOnce | lib/openrouter.ts:121-139 | an attempt succeeds exactly when the reply is OK and yields a non-empty image, with that image; a reply that is not OK throws `OpenRouter failed` |
| OpenRouter.Headers | lib/openrouter.ts:79-89 | the headers are the bearer token and JSON content type, plus `HTTP-Referer` and `X-Title` exactly when those settings are non-empty |
| OpenRouter.GenerateWithOpenRouter | lib/openrouter.ts:68-141 | without an API key it throws `OpenRouter API key missing` before any request; otherwise it makes one to three requests with back-off, and a success is the image of the last reply, which was OK |
| Gemini.NormalizeModel | lib/gemini.ts:6-8 | the name starts with `models/`: a name already starting so is kept, any other gets the prefix |
| Gemini.NormalizeModelIdempotent | lib/gemini.ts:6-8 | normalising twice is normalising once |
| Gemini.ImagenContainsImage | lib/gemini.ts:11 | a name containing `imagen` in any case contains `image` |
| Gemini.IsImageModelIsImage | lib/gemini.ts:10-12 | the image-model test is the same as a case-insensitive search for `image` |
| Gemini.ContainsCaseless | lib/gemini.ts:11-44 | a name containing a text exactly also contains it ignoring case |
| Gemini.RouteOrder | lib/gemini.ts:44-119 | the Imagen route is taken exactly when the model name contains `imagen` (case-sensitively); the SDK is tried first exactly when the name contains no `image` in any case |
| Gemini.Endpoint | lib/gemini.ts:46-77 | the Imagen route posts to `<model>:predict`, the others to `<model>:generateContent`, with the normalised model name |
| Gemini.FindInline | lib/gemini.ts:111-114 | the inline data found is truthy; nothing is found exactly when no part is `null` and no part has truthy inline data; a throw needs a `null` part |
| Gemini.FindInlineFirst | lib/gemini.ts:111-114 | the inline data found is that of the first part that has any, when no `null` part comes before it |
| Gemini.NullPartThrows | lib/gemini.ts:111-114 | a `null` part before any part carrying data makes the search throw (`p.inlineData` on `null`) |
| Gemini.RestNullPartThrows | lib/gemini.ts:102-116 | an OK REST reply with a `null` part before any part carrying data makes the try throw a `TypeError` |
| Gemini.TryOnce | lib/gemini.ts:42-199 | on the Imagen route a reply that is not OK throws `Imagen REST failed`; the image-model route is the REST attempt; the SDK route falls back to the REST attempt when the SDK call throws |
| Gemini.RestFindsFirstInline | lib/gemini.ts:102-116 | an OK REST reply whose first part with inline data carries a non-empty string gives that string |
| Gemini.GenerateWithGemini | lib/gemini.ts:28-200 | without an API key it throws `Gemini API key missing` before any attempt; otherwise it makes one to three attempts on the route the model name chooses, with back-off |
| Prompt.BuildPrompt | lib/prompt.ts:8-10 | the prompt is the fixed base prompt, a line break, `パレット: ` and then the palette joined by `, ` |
| Prompt.EmptyPalette | lib/prompt.ts:8-10 | with no colours the prompt ends in `パレット: ` |
| Prompt.PaletteInOrder | lib/prompt.ts:9 | when no colour contains a comma, splitting the palette part at commas gives the colours back in order, each after the first preceded by a space |
| Mood.Lookup | lib/mood.ts:54-57 | a mood found has the id asked for and is one of the options; none is found exactly when no option has that id |
| Mood.WithoutRandom | lib/mood.ts:59 | the pool holds exactly the options other than `random` |
| Mood.PoolIsTheSixMoods | lib/mood.ts:16-59 | the pool is the six moods after `random`, in their order |
| Mood.NothingToFilter | lib/mood.ts:59 | options with no `random` entry pass the filter unchanged |
| Mood.MoodIdsDistinct | lib/mood.ts:16-52 | the seven mood ids are distinct, so the id map loses no option |
| Mood.LookupFindsOption | lib/mood.ts:54 | with distinct ids, looking up an option's id finds that option |
| Mood.ResolveFrom | lib/mood.ts:56-61 | the mood resolved is never `random` and is one of the options |
| Mood.ResolveMood | lib/mood.ts:56-61 | the mood resolved is never `random` and is one of the seven options |
| Mood.KnownChosenFrom | lib/mood.ts:57-58 | an id of an option other than `random` resolves to that option whatever the random draw |
| Mood.DrawnFrom | lib/mood.ts:57-60 | no id, an empty id, `random` or an unknown id resolves to the pool entry at `floor(r · pool size)` |
| Mood.DrawnFromSix | lib/mood.ts:59-60 | with the seven-option table the draw picks option `1 + floor(6r)` |
| Mood.RealMoodIds | lib/mood.ts:16-52 | every mood after the first has a non-empty id other than `random` |
| Mood.KnownMoodChosen | lib/mood.ts:56-58 | each of the six real mood ids resolves to its own mood |
| Mood.OtherwiseDrawn | lib/mood.ts:56-61 | any other request resolves to the mood at `1 + floor(6r)` |
| Variation.Lookup | lib/variation.ts:27-52 | a variation found has the id asked for; none is found exactly when no option has it |
| Variation.ResolveVariation | lib/variation.ts:51-54 | a known id gives its variation; no id, an empty id or an unknown one gives `standard` |
| Variation.VariationChosen | lib/variation.ts:9-54 | each of the three ids resolves to its own variation |
| Variation.ExtraFeaturesDistinct | lib/variation.ts:31-39 | the seven extra features are distinct |
| Variation.RemoveAt | lib/variation.ts:46 | `splice(idx, 1)` removes exactly the element at `idx`, keeping the order of the rest |
| Variation.PickStep | lib/variation.ts:44-47 | moving one element from the pool to the picks keeps picks and pool disjoint and together a rearrangement of the features |
| Variation.DrawnStep | lib/variation.ts:44-47 | one more round of the loop continues the same sequence of draws |
| Variation.PickDone | lib/variation.ts:44-48 | when the loop stops, the picks are those of the draw sequence, their number is the count bounded by the features available (and at least 0), and every pick is a feature |
| Variation.PickFrom | lib/variation.ts:41-49 | the picks are determined by the draws, number `max(0, min(count, pool size))`, are distinct and are all taken from the pool |
| Variation.PickExtras | lib/variation.ts:41-49 | the extras picked number `min(count, 7)` (at least 0), are distinct and are all extra features |
| Variation.Decorate | lib/variation.ts:60 | the decorated prompt starts with the option's prompt and ` 追加要素: ` and ends with `。` |
| Variation.BuildVariationPrompt | lib/variation.ts:56-62 | `subtle` gives its prompt alone; `bold` appends two distinct extra features and the others one, joined by `、` |
| Generate.Strings | app/api/generate/route.ts:23 | a JSON array is read as strings exactly when every item is a string, keeping them in order |
| Generate.ParsePalette | app/api/generate/route.ts:22-46 | an accepted palette is three `#RRGGBB` strings; a missing or empty field is a schema error (the empty array fails the length check); a field that is not valid JSON is the other kind of error, and only it |
| Generate.PaletteAccepted | app/api/generate/route.ts:22-46 | a JSON array of three `#RRGGBB` strings is accepted as that palette |
| Generate.ReadForm | app/api/generate/route.ts:47-52 | background removal is on exactly when `bgRemove` is `1`; the mood id is the field or `random`; the source is `upload` exactly when the field says so and `draw` otherwise; the priority code is the field or empty |
| Generate.EmptyCodeLimited | app/api/generate/route.ts:54-56 | outside development an empty priority code never bypasses the rate limit, even when the configured code is empty |
| Generate.Chosen | app/api/generate/route.ts:79-110 | the stylized input is the output exactly when the fallback is the provider, and `geminiFailed` only comes with the fallback |
| Generate.RunProviders | app/api/generate/route.ts:79-110 | OpenRouter is tried when its key is set; Gemini is tried when its key is set and OpenRouter was not tried or threw; the first success is the output with its provider, and otherwise the stylized fallback; `geminiFailed` holds exactly when some provider was tried and the fallback was used, and then every provider tried threw; the output, provider and flag are those of `Chosen`, the first configured generator that succeeds |
| Generate.Status | app/api/generate/route.ts:157-170 | only a generated result is answered with 200 |
| Generate.FailureReply | app/api/generate/route.ts:158-170 | a schema error is answered with 400, an origin error with 403 and any other error with 500 |
| Generate.Produce | app/api/generate/route.ts:67-157 | after the limiter, the reply is the generated picture exactly when the pipeline succeeds, with the provider choice of `Chosen`, and adds one generation; otherwise it is 500 and records one failure |
| Generate.Post | app/api/generate/route.ts:26-172 | maintenance mode answers 503 first and leaves the limiter alone; a missing file answers 400 without touching the metrics; a cross-origin request records a failure and gets 403; a body that is not a form, or a palette that is not JSON, records a failure and gets 500; a palette that fails the schema records a failure and gets 400; none of these touches the limiter; a caller who bypasses the limit or is in development leaves the limiter untouched; otherwise the limiter's records become `Check`'s, and the reply is 429 exactly when `Check` refuses, carrying its `retryAfter`, without touching the metrics; past the limiter the reply is the generated picture exactly when the pipeline succeeds, with the output, provider and `geminiFailed` of `Chosen`, adding one generation and no failure, and otherwise 500 with one failure recorded |
| Config.Entry | lib/config.ts:15-23 | an entry read from a line has a non-empty key with no `=` that does not start with `#` |
| Config.Assignment | lib/config.ts:18-22 | a `key=value` line gives a non-empty key without `=`, the text before the first `=` |
| Config.TrimWithout | lib/config.ts:20 | trimming never introduces a character |
| Config.KeyStart | lib/config.ts:17-22 | a line that does not start with `#` or white space never gives a key starting with `#` |
| Config.Entries | lib/config.ts:15-23 | each line is read on its own |
| Config.ReadEnvLocal | lib/config.ts:7-28 | outside development, or when `.env.local` cannot be read, no entry is read; otherwise the entries of the file's lines |
| Config.LastSettingWins | lib/config.ts:22 | the last line that sets a key decides its value |
| Config.UnsetKeyAbsent | lib/config.ts:22 | a key set on no line is absent |
| Config.LastLineWins | lib/config.ts:15-23 | in a file, a key takes the value of the last line that sets it |
| Config.UnsetLineAbsent | lib/config.ts:15-23 | in a file, a key that no line sets is absent from the dictionary |
| Config.TrimNoSpace | lib/config.ts:16 | a line with no white space is unchanged by trimming |
| Config.FirstEquals | lib/config.ts:18-21 | in `key=value` with no `=` in the key, the first `=` separates exactly the key and the value |
| Config.JoinNoSpace | lib/config.ts:16 | a `key=value` line built from parts with no white space has none |
| Config.LineTrimmed | lib/config.ts:16-17 | such a line is not blank, not a comment and unchanged by trimming |
| Config.EntryIsAssignment | lib/config.ts:16-19 | a trimmed line that is neither blank nor a comment is read as an assignment |
| Config.AssignmentOf | lib/config.ts:18-22 | `key=value` with trimmed parts and a non-empty key without `=` reads as that key and value |
| Config.AssignmentRead | lib/config.ts:15-23 | a writable `key=value` line reads as that key and value |
| Config.Lines | lib/config.ts:15-23 | one `key=value` line per pair, in order |
| Config.ApplyPairs | lib/config.ts:22 | applying the entries of pairs in order builds the same map as the pairs, later ones winning |
| Config.AssignmentsRead | lib/config.ts:15-23 | the lines written from writable pairs read back as the map of those pairs |
| Config.EnvFileRoundTrip | lib/config.ts:15-24 | a `.env.local` file written from writable pairs, one per line, reads back as the map of those pairs |
| Config.ByKey | lib/config.ts:32-64 | exactly the known variables present in the environment are picked up, with their values |
| Config.Raw | lib/config.ts:66-68 | an environment the schema accepts is used as it is, and a rejected one counts as empty |
| Config.Setting | lib/config.ts:70-128 | a setting is the process value when non-empty, else the `.env.local` value when non-empty, else the default |
| Config.Flag | lib/config.ts:106-125 | a flag is on exactly when the setting is the text `true` |
| Config.Numeric | lib/config.ts:108-123 | a numeric setting is at least 1; it is `NaN` exactly when its text is not a number; a value of at least 1 is kept |
| Config.LoadEnv | lib/config.ts:70-129 | the four numeric settings are at least 1 whenever they are numbers, and the models, storage provider, bucket, region and log level are never empty |
| Config.RejectedEnvIgnored | lib/config.ts:66-68 | when the schema rejects the process environment, only `.env.local` and the defaults count |
| Config.NumericDefault | lib/config.ts:108-123 | an unset numeric setting takes its default value |
| Config.Defaults | lib/config.ts:88-128 | unset, the storage provider is `local`, the Supabase bucket `myreal`, the S3 region `auto`, the log level `info`, and event and maintenance modes are off |
| Config.Precedence | lib/config.ts:70-128 | a non-empty process value always wins over `.env.local`; a flag is on only when one of them says `true` with the process value taking precedence |
| Scan.Find | app/scan/page.tsx:25-26 | the position found is the first at which the marker occurs, and there is none exactly when it does not occur |
| Scan.AfterMarker | app/scan/page.tsx:26 | the text taken after the first `/ar/` ends before the next `/ar/`, so never contains one |
| Scan.PrefixAvoids | app/scan/page.tsx:26 | a prefix ending before the first occurrence contains no occurrence |
| Scan.CutQuery | app/scan/page.tsx:27 | the token is the text up to the first `?` or `#`, and contains neither |
| Scan.NonEmpty | app/scan/page.tsx:18 | `filter(Boolean)` keeps exactly the non-empty segments |
| Scan.Segments | app/scan/page.tsx:18 | each path segment is non-empty and contains no `/` |
| Scan.Position | app/scan/page.tsx:19 | `indexOf('ar')` finds the first `ar` segment, or none when there is none |
| Scan.FromText | app/scan/page.tsx:24-30 | text that is not a URL and has no `/ar/` is taken whole as the token; with `/ar/`, a token taken is a prefix of what follows the first `/ar/`, without `?` or `#` |
| Scan.ExtractTokenCases | app/scan/page.tsx:13-31 | blank input gives nothing; input that parses as a URL gives what its path gives; any other input is read as text |
| Scan.UrlToken | app/scan/page.tsx:17-22 | a URL whose path has a segment after its first `ar` segment gives that segment, decoded |
| Scan.UrlWithoutToken | app/scan/page.tsx:17-23 | a URL with no `ar` segment followed by another gives nothing |
| Scan.PlainTextToken | app/scan/page.tsx:24-29 | text that is not a URL and has no `/ar/` is its own token after trimming |
| Scan.LinkRoundTrip | app/scan/page.tsx:25-27 | a share link `<host>/ar/<token>` that is not a URL reads back as the token |
| Scan.NoSlashNoMarker | app/scan/page.tsx:25 | text without `/` never contains `/ar/` |
| Scan.FindIsFirst | app/scan/page.tsx:26 | the search returns the first occurrence |
| Scan.ContainsAt | app/scan/page.tsx:25 | an occurrence at some position means the text contains the marker |
| Scan.CutQueryKeeps | app/scan/page.tsx:27 | a token with no `?` or `#` is kept whole |
| Scan.ScanPage.constructor | app/scan/page.tsx:37-54 | the page starts idle with every field empty, no camera running and the detector support as reported |
| Scan.ScanPage.StopScan | app/scan/page.tsx:56-66 | scanning, the frame request and the camera stream all stop, and no other state changes |
| Scan.ScanPage.StartScan | app/scan/page.tsx:74-113 | without detector support, or while already scanning, nothing changes; with the camera granted, the page is scanning with no error and a frame request pending; with the camera refused, it shows the camera error and everything is stopped |
| Scan.ScanPage.LookupToken | app/scan/page.tsx:115-124 | an unreadable value shows the unreadable-QR error; a readable one fills the input with the token, clears the error and starts checking |
| Scan.ScanPage.Begin | app/scan/page.tsx:117-124 | the start of the lookup, as for `LookupToken` on the extracted token |
| Scan.ScanPage.LookupDone | app/scan/page.tsx:125-140 | a found token makes the page ready with the token, image URL and expiry; a not-found reply and a failed request each show their own error and keep the previous result |
| Scan.ScanPage.HandleResult | app/scan/page.tsx:68-72 | with the captured state checking or ready, a result is ignored; otherwise the camera stops and the lookup starts |
| Scan.ScanPage.ScanFrame | app/scan/page.tsx:91-107 | an inactive scan does nothing; a frame with no code asks for another frame; a code is ignored while the state captured at start is checking or ready, and otherwise stops the camera and starts the lookup |
| Scan.ScanPage.HandleManual | app/scan/page.tsx:143-150 | blank input shows the enter-a-number error and changes nothing else; other input stops the camera and looks up the trimmed input |
| Scan.ScanPage.Halt | app/scan/page.tsx:190-193 | the stop button stops the camera and makes the page idle |
| Scan.ScanPage.EditInput | app/scan/page.tsx:204 | typing replaces the input text and nothing else |
| Scan.ScanPage.ClearInput | app/scan/page.tsx:215-219 | clearing empties the input and the error and makes the page idle |
| Scan.ScanPage.Retry | app/scan/page.tsx:240-241 | retrying looks up the input as it stands, untrimmed |
| Scan.ScanPage.ReadAgain | app/scan/page.tsx:273-277 | reading again makes the page idle with no error, keeping the last result |
| DrawingCanvas.Blend | app/components/DrawingCanvas.tsx:88-104 | a fully transparent stroke colour leaves a pixel unchanged under either operation; a solid colour drawn `source-over` replaces the pixel, and drawn `destination-out` makes it transparent |
| DrawingCanvas.Painted | app/components/DrawingCanvas.tsx:103-104 | a stroke changes only the pixels it covers and keeps the image size |
| DrawingCanvas.ClearStrokeKeeps | app/components/DrawingCanvas.tsx:88-104 | a stroke in `rgba(0,0,0,0)`, the eraser's colour, changes no pixel under either operation |
| DrawingCanvas.PenStrokeInks | app/components/DrawingCanvas.tsx:88-104 | a pen stroke paints every pixel it covers in the ink colour `#101114` |
| DrawingCanvas.GetPos | app/components/DrawingCanvas.tsx:65-73 | a position is computed exactly when the canvas's on-screen box has non-zero width and height |
| DrawingCanvas.AxisScales | app/components/DrawingCanvas.tsx:70-71 | on each axis the box's near edge maps to 0, its far edge to 768, a point inside it to a value between them, and the mapping inverts the scaling by the box size |
| DrawingCanvas.GetPosScales | app/components/DrawingCanvas.tsx:65-73 | the box's top-left corner maps to (0, 0) and its bottom-right to (768, 768); any canvas position is reached from the matching screen point; points inside the box land inside the canvas |
| DrawingCanvas.Canvas.constructor | app/components/DrawingCanvas.tsx:13-63 | the 768 × 768 canvas starts blank with no history, not drawing, and with the context defaults |
| DrawingCanvas.Canvas.ClearRect | app/components/DrawingCanvas.tsx:40-50 | every pixel becomes blank |
| DrawingCanvas.Canvas.PutImageData | app/components/DrawingCanvas.tsx:53 | the pixels become the snapshot |
| DrawingCanvas.Canvas.PointerDown | app/components/DrawingCanvas.tsx:75-93 | the current image is pushed onto the history unchanged, drawing starts, and the width, colour and operation are set from the tool (pen: 6, ink, `source-over`; eraser: 24, transparent, `destination-out`) |
| DrawingCanvas.Canvas.PointerMove | app/components/DrawingCanvas.tsx:95-105 | when not drawing nothing changes; when drawing the covered pixels are painted with the current colour and operation |
| DrawingCanvas.Canvas.EndDrawing | app/components/DrawingCanvas.tsx:107-122 | drawing stops and the operation returns to `source-over`; the history, colour and width are kept |
| DrawingCanvas.Canvas.Undo | app/components/DrawingCanvas.tsx:43-54 | with an empty history the canvas is cleared; otherwise the last snapshot is removed from the history and becomes the image |
| DrawingCanvas.Canvas.Clear | app/components/DrawingCanvas.tsx:35-42 | the canvas becomes blank and the history empty |
| DrawingCanvas.Canvas.StrokeThenUndo | app/components/DrawingCanvas.tsx:43-122 | a whole stroke (press, moves, release) followed by undo restores the image and the history as they were before the stroke |
| ServiceWorker.Find | public/sw.js:7-48 | the position of the first cache with the name, or the number of caches when there is none |
| ServiceWorker.WithEntries | public/sw.js:7-48 | replacing a cache's entries updates the first cache of that name in place, or appends a new cache when there is none, and afterwards the named cache holds exactly the new entries |
| ServiceWorker.FindFirst | public/sw.js:7 | the first cache with the name is the one found |
| ServiceWorker.WithEntriesKeepsOthers | public/sw.js:48 | updating one cache leaves the entries of every differently named cache as they were |
| ServiceWorker.Open | public/sw.js:7-48 | opening `myreal-v1` returns the existing cache unchanged, or creates it empty at the end |
| ServiceWorker.Put | public/sw.js:48 | after a put, the `myreal-v1` cache maps the URL to the response and keeps its other entries |
| ServiceWorker.Lookup | public/sw.js:33-43 | a match is the response stored for the URL in the first cache holding it; there is none exactly when no cache holds the URL |
| ServiceWorker.PutKeepsOthers | public/sw.js:48 | a put leaves the match of every other URL unchanged |
| ServiceWorker.PutThenLookup | public/sw.js:43-48 | when `myreal-v1` is the only cache, a URL matches the response just put for it |
| ServiceWorker.StoredValue | public/sw.js:8 | after `addAll` every precached URL maps to the response fetched for it |
| ServiceWorker.StoredKeys | public/sw.js:8 | `addAll` adds exactly the precached URLs to the cache and keeps every other entry |
| ServiceWorker.DistinctUrls | public/sw.js:8 | distinct paths resolve to distinct URLs on one origin |
| ServiceWorker.Resolved | public/sw.js:8 | the resolved URLs are exactly the origin followed by each path |
| ServiceWorker.InstallStoresExactly | public/sw.js:8 | installing into an empty cache stores exactly `/`, `/offline` and `/manifest.json` on the worker's origin, each with its fetched response |
| ServiceWorker.KeepNamed | public/sw.js:15-20 | the loop over the cache names leaves exactly the caches `Keep` retains, in order |
| ServiceWorker.KeepOnlyCurrent | public/sw.js:15-20 | every cache activation keeps is named `myreal-v1` |
| ServiceWorker.KeepFirstFound | public/sw.js:15-20 | a cache is kept exactly when one named `myreal-v1` existed, and the first kept is the one a lookup by name finds |
| ServiceWorker.KeepEntries | public/sw.js:15-20 | activation leaves the entries of `myreal-v1` as they were |
| ServiceWorker.RouteOf | public/sw.js:26-57 | a request is left to the browser exactly when it is not `GET`, or is neither a navigation nor same-origin; a `GET` navigation is handled as one whatever its origin; the cache-first route is only for same-origin requests |
| ServiceWorker.NavigationFallback | public/sw.js:33 | the offline fallback is the match for `/offline`; because a pending match is always truthy, a cached `/` is never used in its place |
| ServiceWorker.Worker.constructor | public/sw.js:1-2 | the worker starts with the existing caches, not yet skipping waiting, and controlling no clients |
| ServiceWorker.Worker.Install | public/sw.js:4-11 | when every precache fetch gives an OK, non-partial response, the three URLs are stored in `myreal-v1` and the worker skips waiting; when one fails, only the opened cache remains and nothing is stored |
| ServiceWorker.Worker.Activate | public/sw.js:13-24 | every cache other than `myreal-v1` is deleted, and the worker claims its clients |
| ServiceWorker.Worker.HandleFetch | public/sw.js:26-58 | a request that is not `GET`, or a cross-origin non-navigation request, is passed through with the caches untouched; a navigation gets the network response, or when offline the cached `/offline` page; a same-origin request gets the network response, stored in `myreal-v1` when it is OK and not a partial (206) response, which `cache.put` rejects, or when offline the cached copy, or a network error |
| Logger.Rank | lib/logger.ts:3-7 | a level's rank is its position in `LEVELS` |
| Logger.IndexOfName | lib/logger.ts:3-7 | the position of the configured name in `LEVELS`, or -1 exactly when it names no level |
| Logger.Threshold | lib/logger.ts:9-12 | the lowest rank written is that of the configured level, or of `info` when the name is not a level |
| Logger.ShouldLogMeaning | lib/logger.ts:9-12 | with a level configured, a message is written exactly when it is at least as severe; with an unknown name, exactly when it is not `debug` |
| Logger.UnknownIsInfo | lib/logger.ts:9-12 | an unknown configured name filters as `info` does |
| Logger.MoreSevereLogged | lib/logger.ts:9-12 | when a level is written, every more severe level is written too |
| Logger.ErrorAlwaysLogged | lib/logger.ts:9-12 | `error` messages are always written |
| Logger.Payload | lib/logger.ts:15-20 | the line holds `level`, `message` and `time` and the keys of `meta`, a `meta` key overriding the fixed one of the same name |
| Logger.Log | lib/logger.ts:14-23 | a line is written exactly when the level passes the filter, and it is the payload |
| Common.RandomIndex | lib/mood.ts:60 | `Math.floor(r · n)` for r in [0, 1) is an index below n, the floor of r · n |
| Common.Round | lib/metrics.ts:57 | `Math.round` lands within half a unit of its argument |
| Common.Floor | app/components/ARClient.tsx:1099-1100 | `Math.floor` is the greatest integer not above its argument |
| Common.Ceil | lib/rateLimit.ts:23 | `Math.ceil` is the least integer not below its argument |
| Common.IndexOf | lib/config.ts:18 | `indexOf` finds the first occurrence of the character, or none exactly when it does not occur |
| Common.Split | lib/token.ts:32 | `split` gives at least one field, no field contains the separator, and text without it is a single field |
| Common.SplitJoin | lib/token.ts:28-32 | splitting fields joined by a separator they do not contain gives the fields back |
| Common.Trim | app/api/feedback/route.ts:19 | `trim` gives a slice of the text whose dropped prefix and suffix are all white space, and leaves no white space at either end |
| Common.OrElse | lib/security.ts:6 | a string fallback gives one of its two operands, and is empty only when both are |

## Left out

- Numbers are exact reals and unbounded integers. IEEE-754 rounding, `Float32` storage and 64-bit limits are not modelled. Ties in `Math.round` and `toFixed(2)` are settled upward, as `Common.Round` and `Metrics.Round2` do.
- `Number()` is modelled only for decimal numerals (`JsNumber.ToNumber`). Exponents, `0x`, `Infinity` and the other forms read as NaN in the model.
- Randomness is a parameter: a number in [0, 1) for `Math.random`, the drawn id for `nanoid(20)`, and the random secret for `crypto.randomBytes(32)`.
- HMAC-SHA256 is the parameter `sign`, and SHA-256 (`hashIp`) is not part of this model. The rate limiter is keyed by the hash it is given.
- Token.CreateToken: the digits JavaScript prints after the point of a fractional expiry (the shortest that read back as the same double) are a parameter, `fraction`. An expiry of 10²¹ ms or more, which JavaScript writes in exponential notation, is written as a plain numeral here.
- Token.VerifyToken: the length check and `timingSafeEqual` are modelled together as string equality. The signature compared is the one presented in the token, so it may hold any characters. A presented signature with non-ASCII characters and the expected UTF-16 length gives buffers of different byte lengths. `timingSafeEqual` then throws a RangeError and `verifyToken` throws. The model calls such a token Invalid instead.
- The clock (`Date.now()`, `new Date().toISOString()`) is a parameter. Date parsing of `createdAt` and `expiresAt` is the parameter `timeOf`.
- sharp (decoding, resizing, encoding), the file-type sniffer, onnxruntime background removal and the USDZ/GLTF exporters are outside the model. Their answers are parameters, and in the generate route the whole image pipeline is the single outcome `pipelineOk`.
- Generate.Post: creating the token and the image URL, saving the record and the p-queue scheduling happen inside `pipelineOk`. The reply for a generated picture is not tied to their values.
- Network clients (OpenRouter, Gemini and its SDK, Upstash, Supabase, S3) are outcome parameters. So are their failures: a storage write error (`Storage.SaveFileWithKey`'s `writeError`), an Upstash error, or an unreadable response body.
- The sleeps in `withBackoff` (500, 1000, 2000 ms) and in `waitForUrl` are left out. Attempt counts are modelled.
- File reads and writes (`data/meta.json`, `data/metrics.json`, `data/feedback.json`, `.env.local`) appear as their content (`None` when reading fails). The writes back, and the promise chain that orders them, are left out.
- A feedback or metadata file that parses to something other than the expected shape (null, a non-array, wrong field types) is not modelled. The file is either unreadable or well-formed.
- Gemini.RestTry: a `parts` value that is neither an array nor `null` makes `.find` throw a `TypeError` in the source. The model throws too, but with the message `Gemini REST no image data`.
- Gemini.RestFindsFirstInline: image data that is an array or array-like object is turned into bytes by `Buffer.from` in the source. The model counts it as a failed try; only string data is decoded.
- The process environment is restricted to the 31 variables the schema names (`Config.Key`). A `STORAGE_PROVIDER` from `.env.local` is not checked against the enum, as in the source.
- Config.LoadEnv: the numeric defaults are stated by `Config.NumericDefault` rather than on `LoadEnv`'s fields.
- zod's string length counts UTF-16 code units; the model counts characters.
- `new URL(...)`, `atob`, `Buffer.from(..., 'base64')` and `decodeURIComponent` are parameters: `hostOf`, `atob`, `decode` and `pathnameOf`.
- Logger: the console write and `JSON.stringify` are left out; the line is the payload map. `logInfo`, `logWarn`, `logError` and `logDebug` are `Logger.Log` at a fixed level.
- Prompt.BuildPrompt: callers also pass the mood, and the source ignores that extra argument. The model has only the palette parameter.
- The AR viewer's three.js scene, the WebGL renderer and materials, the WebXR session and its animation loop, `ResizeObserver`, `getUserMedia`, `requestVideoFrameCallback`/`requestAnimationFrame` scheduling and the Canvas 2D drawing calls are left out. Only the numbers and flags they compute are modelled.
- Quaternions are a concrete datatype with the Hamilton product. The rotation about the vertical axis (which needs sine and cosine) is supplied by the caller.
- Image.RemoveNearWhiteBackground: four channels per pixel are assumed. The source steps by `info.channels`, which is 2 for a greyscale upload after `ensureAlpha`. It then reads grey, alpha and the next pixel's grey as r, g and b and writes the "alpha" at i + 3; that case is not modelled.
- Stylize.StylizeFallback: four channels per pixel are assumed, as above. For a two-channel greyscale buffer the source reads and writes across pixel boundaries; that case is not modelled.
- Stylize.PaintPixels: its loop carries the same four-channel assumption as `Stylize.StylizeFallback`.
- QuickLook.SampleCornerColor: requires both sides to be at least 6 pixels. For smaller pictures the source reads past the buffer and averages `undefined` into NaN.
- QuickLook.BuildProcessedCanvas: carries the same requirement of at least 6 pixels per side.
- The QuickLook component's other items are left out: the USDZ export, the upload and the link. Its null-canvas branches throw and become `ok == false`.
- DrawingCanvas.GetPos: a zero-sized on-screen box gives `None`; the source divides by zero and gets NaN or Infinity.
- A missing canvas or context in `DrawingCanvas.tsx` makes every handler return early; that branch is left out. So are `exportBlob`, `onDirty`, pointer capture and the rasterisation of a stroke segment, which is the `covered` parameter.
- An eraser stroke paints `rgba(0,0,0,0)` with `destination-out`, which erases nothing (`DrawingCanvas.ClearStrokeKeeps`). The model keeps this as the source has it.
- Scan: the camera, `BarcodeDetector` and the metadata request are parameters of the steps that receive their answers. The frame callback's stale reading of `state` is the captured field `seen`.
- Service worker: the unawaited `cache.put` is applied at once. Matching is by URL only, and a request's origin is given rather than parsed. `skipWaiting` and `clients.claim` are flags. The parallel fetches of `addAll` are the `fetched` outcomes.
