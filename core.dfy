/** The subtask generator's input parameters and the records it hands to
    the engine (src/core.py). Python floats are modelled as exact reals. */
module Core {

  /** One rendering subtask: the centre of the frame on the complex plane,
      the frame's zoom factor and the local file its image is downloaded to. */
  datatype GeomandelData = GeomandelData(x: real, y: real, zoom: real, outputPath: string)

  /** What the requestor asks for: the centre point, the zoom multiplier
      between consecutive frames, the first frame index and the number of
      frames. */
  datatype MandelbrotGenerationParameters =
    MandelbrotGenerationParameters(x: real, y: real, multiplier: real, offset: int, count: int)
}
