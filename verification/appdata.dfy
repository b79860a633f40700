/** The bundle of handles and properties the renderer keeps (AppData in app.rs). */
module AppState {
  import opened Vk

  class AppData {
    var physicalDevice: Handle
    var graphicsQueue: Queue
    var presentQueue: Queue
    var swapchain: Handle
    var swapchainImages: seq<Handle>
    var swapchainExtent: Extent
    var swapchainImageViews: seq<Handle>
    var renderPass: Handle
    var descriptorSetLayout: Handle
    var pipelineLayout: Handle
    var pipeline: Handle
    var framebuffers: seq<Handle>
    var commandPool: Handle
    var commandBuffers: seq<Handle>
    /** Secondary command buffers indexed by [image][model]. */
    var secondaryCommandBuffers: seq<seq<Handle>>
    var imageAvailableSemaphores: seq<Handle>
    var renderFinishedSemaphores: seq<Handle>
    var inFlightFences: seq<Handle>
    /** For each swapchain image, the fence of the frame slot that last used it, or null. */
    var imagesInFlight: seq<Handle>
    /** Lengths of the loaded vertex and index lists (their contents are not modelled). */
    var vertexCount: nat
    var indexCount: nat
    var vertexBuffer: Handle
    var vertexBufferMemory: Handle
    var indexBuffer: Handle
    var indexBufferMemory: Handle
    var uniformBuffers: seq<Handle>
    var uniformBuffersMemory: seq<Handle>
    var descriptorPool: Handle
    var descriptorSets: seq<Handle>
    var mipLevels: nat
    var textureImage: Handle
    var textureImageMemory: Handle
    var textureImageView: Handle
    var textureSampler: Handle
    var depthImage: Handle
    var depthImageMemory: Handle
    var depthImageView: Handle
    var msaaSamples: Flags
    var colorImage: Handle
    var colorImageMemory: Handle
    var colorImageView: Handle

    /** `AppData::default()`: every handle null, every list empty. */
    constructor ()
      ensures swapchainImages == [] && swapchainImageViews == [] && framebuffers == []
      ensures commandBuffers == [] && secondaryCommandBuffers == [] && imagesInFlight == []
      ensures uniformBuffers == [] && uniformBuffersMemory == [] && descriptorSets == []
      ensures inFlightFences == [] && imageAvailableSemaphores == [] && renderFinishedSemaphores == []
      ensures vertexBuffer == NULL && indexBuffer == NULL && colorImage == NULL && depthImage == NULL
    {
      physicalDevice, graphicsQueue, presentQueue := NULL, Queue(0, 0), Queue(0, 0);
      swapchain, swapchainImages, swapchainExtent, swapchainImageViews := NULL, [], Extent(0, 0), [];
      renderPass, descriptorSetLayout, pipelineLayout, pipeline := NULL, NULL, NULL, NULL;
      framebuffers, commandPool, commandBuffers, secondaryCommandBuffers := [], NULL, [], [];
      imageAvailableSemaphores, renderFinishedSemaphores, inFlightFences, imagesInFlight := [], [], [], [];
      vertexCount, indexCount := 0, 0;
      vertexBuffer, vertexBufferMemory, indexBuffer, indexBufferMemory := NULL, NULL, NULL, NULL;
      uniformBuffers, uniformBuffersMemory, descriptorPool, descriptorSets := [], [], NULL, [];
      mipLevels, textureImage, textureImageMemory, textureImageView, textureSampler := 0, NULL, NULL, NULL, NULL;
      depthImage, depthImageMemory, depthImageView := NULL, NULL, NULL;
      msaaSamples, colorImage, colorImageMemory, colorImageView := 1, NULL, NULL, NULL;
    }

    /** The per-image lists have one entry per swapchain image.  (The secondary table is not
        among them: rendering truncates it to the index of the image being drawn.) */
    ghost predicate PerImage()
      reads this
    {
      var n := |swapchainImages|;
      |swapchainImageViews| == n && |framebuffers| == n && |commandBuffers| == n
      && |uniformBuffers| == n && |uniformBuffersMemory| == n && |descriptorSets| == n
      && |imagesInFlight| == n
    }
  }
}
