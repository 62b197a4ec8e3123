/** The decoded pipeline script the executor walks (internal/service/pipeline_script.go). */
module PipelineScript {

  datatype Step = Step(step: string, script: string, timeoutSeconds: int, parallel: bool)

  datatype Stage = Stage(stage: string, steps: seq<Step>, artifacts: string)
}
